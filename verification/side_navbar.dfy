/** The side navigation of the frontend
    (frontend/src/lib/components/SideNavbar.tsx): two fixed tables of routes,
    the link each route renders and the rule that marks a link active. */
module SideNavbar {
  import opened Text

  datatype Route = Route(text: string, href: string)

  /** The `actions` table, in its order. */
  const Actions: seq<Route> := [
    Route("Dashboard", "/dashboard"),
    Route("Test suites", "/test-suites"),
    Route("Saved tests", "/saved-tests"),
    Route("History", "/history")]

  /** The `help` table, in its order. */
  const Help: seq<Route> := [
    Route("Documentation", "/documentation"),
    Route("FAQ", "/faq"),
    Route("Contact", "/contact")]

  /** `isLinkActive`: the pathname is the route's href, or the pathname with a
      slash appended starts with it. */
  predicate IsLinkActive(route: Route, pathname: string) {
    pathname == route.href || StartsWith(pathname + "/", route.href)
  }

  /** The href of a `RouteLink`: `/<prefix><route.href>`. */
  function LinkHref(prefix: string, route: Route): (href: string)
    ensures StartsWith(href, "/" + prefix) && EndsWith(href, route.href)
    ensures |href| == 1 + |prefix| + |route.href|
  {
    Framed("/", prefix, route.href);
    "/" + prefix + route.href
  }

  /** An href that does not end with a slash is active exactly for the paths
      that start with it: the appended slash only matters for an href that
      ends with one. */
  lemma ActiveIffPrefix(route: Route, pathname: string)
    requires route.href != [] && route.href[|route.href| - 1] != '/'
    ensures IsLinkActive(route, pathname) <==> StartsWith(pathname, route.href)
  {
    var h := route.href;
    if StartsWith(pathname + "/", h) && pathname != h {
      assert (pathname + "/")[|pathname|] == '/';
      assert |h| <= |pathname|;
      assert (pathname + "/")[..|h|] == pathname[..|h|];
    }
    if StartsWith(pathname, h) {
      assert (pathname + "/")[..|h|] == pathname[..|h|];
    }
  }

  predicate InTables(route: Route) {
    route in Actions || route in Help
  }

  /** Every route of the tables has an href of the form `/<name>`. */
  lemma TableHrefs(route: Route)
    requires InTables(route)
    ensures |route.href| >= 2 && route.href[0] == '/' && route.href[|route.href| - 1] != '/'
  {
  }

  /** A path whose first segment merely starts with a route's name is active
      too: `/dashboard-old` activates `/dashboard`. */
  lemma LooseMatch()
    ensures IsLinkActive(Actions[0], "/dashboard-old")
  {
    assert ("/dashboard-old" + "/")[..|"/dashboard"|] == "/dashboard";
  }

  /** The rendered link carries the prefix but the active test does not: on
      `/1000/dashboard`, the page the Dashboard link leads to with prefix
      `1000`, the Dashboard link is not active. */
  lemma PrefixedPageNotActive()
    ensures LinkHref("1000", Actions[0]) == "/1000/dashboard"
    ensures !IsLinkActive(Actions[0], "/1000/dashboard")
  {
    assert ("/1000/dashboard" + "/")[1] == '1';
  }
}
