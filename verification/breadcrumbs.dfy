/** The breadcrumb trail of the frontend
    (frontend/src/lib/components/content/utilities/Breadcrumbs.tsx): Home, then
    one crumb per non-empty segment of the path, each linking to the path up to
    and including its segment and labelled after it. */
module Breadcrumbs {
  import opened Text

  /** A `BreadcrumbItem`. Its `label` is `title` here, because `label` is a
      reserved word of Dafny. */
  datatype Crumb = Crumb(title: string, href: string)

  const Home := Crumb("Home", "/")

  /** The non-empty pieces, in order. */
  function NonEmpty(parts: seq<string>): seq<string> {
    if parts == [] then []
    else
      var init := NonEmpty(parts[..|parts| - 1]);
      var last := parts[|parts| - 1];
      if last == [] then init else init + [last]
  }

  /** `pathname.split('/').filter(segment => segment !== '')`. */
  function Segments(path: string): seq<string> {
    NonEmpty(SplitOn(path, '/'))
  }

  /** Segments are non-empty and hold no slash. */
  lemma SegmentsShape(path: string)
    ensures forall k :: 0 <= k < |Segments(path)| ==> Segments(path)[k] != [] && '/' !in Segments(path)[k]
  {
    SplitOnNoSep(path, '/');
    NonEmptyFrom(SplitOn(path, '/'));
  }

  /** The pieces kept are non-empty pieces of the input. */
  lemma {:induction false} NonEmptyFrom(parts: seq<string>)
    ensures forall k :: 0 <= k < |NonEmpty(parts)| ==> NonEmpty(parts)[k] != [] && NonEmpty(parts)[k] in parts
  {
    if parts != [] {
      var init := parts[..|parts| - 1];
      NonEmptyFrom(init);
      forall q | q in init ensures q in parts {
        var k :| 0 <= k < |init| && init[k] == q;
        assert parts[k] == q;
      }
    }
  }

  /** The path of the first segments: `/` before each of them. */
  function PathOf(segs: seq<string>): string {
    ConcatMap(segs, s => "/" + s)
  }

  lemma PathOfSnoc(segs: seq<string>, k: nat)
    requires k < |segs|
    ensures PathOf(segs[..k + 1]) == PathOf(segs[..k]) + "/" + segs[k]
  {
    ConcatMapSnoc(segs, k, s => "/" + s);
  }

  /** The label of a segment: a fixed label for the five known pages,
      `Suite <digits>` for a number, and otherwise the segment with its first
      character upper-cased and every later hyphen turned into a space. */
  function SegmentLabel(segment: string): (name: string)
    ensures segment == "dashboard" ==> name == "Dashboard"
    ensures segment == "test-suites" ==> name == "Test Suites"
    ensures segment == "history" ==> name == "History"
    ensures segment == "saved-tests" ==> name == "Saved Tests"
    ensures segment == "actions" ==> name == "Actions"
  {
    if segment == "dashboard" then "Dashboard"
    else if segment == "test-suites" then "Test Suites"
    else if segment == "history" then "History"
    else if segment == "saved-tests" then "Saved Tests"
    else if segment == "actions" then "Actions"
    else if segment != [] && AllDigits(segment) then "Suite " + segment
    else if segment == [] then []
    else [UpperChar(segment[0])] + ReplaceChar(segment[1..], '-', ' ')
  }

  predicate Known(segment: string) {
    segment in {"dashboard", "test-suites", "history", "saved-tests", "actions"}
  }

  /** A number gets `Suite <n>`; any other unknown segment keeps its length,
      its first character upper-cased and its later characters, hyphens
      becoming spaces. */
  lemma SegmentLabelSpec(segment: string)
    requires segment != [] && !Known(segment)
    ensures AllDigits(segment) ==> SegmentLabel(segment) == "Suite " + segment
    ensures !AllDigits(segment) ==>
      |SegmentLabel(segment)| == |segment| &&
      SegmentLabel(segment)[0] == UpperChar(segment[0]) &&
      forall k :: 0 < k < |segment| ==> SegmentLabel(segment)[k] == (if segment[k] == '-' then ' ' else segment[k])
  {
  }

  /** `generateBreadcrumbs`: Home, then for each segment the running path
      extended by `/<segment>` and the segment's label. */
  method GenerateBreadcrumbs(pathname: string) returns (crumbs: seq<Crumb>)
    ensures |crumbs| == 1 + |Segments(pathname)|
    ensures crumbs[0] == Home
    ensures forall k :: 0 <= k < |Segments(pathname)| ==>
      crumbs[k + 1] == Crumb(SegmentLabel(Segments(pathname)[k]), PathOf(Segments(pathname)[..k + 1]))
  {
    var segments := Segments(pathname);
    crumbs := [Home];
    var currentPath := "";
    for k := 0 to |segments|
      invariant |crumbs| == 1 + k && crumbs[0] == Home
      invariant currentPath == PathOf(segments[..k])
      invariant forall j :: 0 <= j < k ==> crumbs[j + 1] == Crumb(SegmentLabel(segments[j]), PathOf(segments[..j + 1]))
    {
      PathOfSnoc(segments, k);
      currentPath := currentPath + "/" + segments[k];
      crumbs := crumbs + [Crumb(SegmentLabel(segments[k]), currentPath)];
    }
  }

  /** Each crumb's href is a prefix of the next one's. */
  lemma HrefPrefix(segs: seq<string>, i: nat, j: nat)
    requires i <= j <= |segs|
    ensures StartsWith(PathOf(segs[..j]), PathOf(segs[..i]))
  {
    assert segs[..j][..i] == segs[..i];
    ConcatMapPrefix(segs[..j], i, s => "/" + s);
  }

  lemma {:induction false} NonEmptyAppend(xs: seq<string>, ys: seq<string>)
    ensures NonEmpty(xs + ys) == NonEmpty(xs) + NonEmpty(ys)
    decreases |ys|
  {
    if ys == [] {
      assert xs + ys == xs;
    } else {
      var zs := xs + ys;
      assert zs[..|zs| - 1] == xs + ys[..|ys| - 1];
      NonEmptyAppend(xs, ys[..|ys| - 1]);
    }
  }

  /** A trailing slash adds no crumb. */
  lemma TrailingSlash(path: string)
    ensures Segments(path + "/") == Segments(path)
  {
    assert path + "/" == path + ['/'] + [];
    SplitOnAppend(path, [], '/');
    NonEmptyAppend(SplitOn(path, '/'), [[]]);
  }

  /** The segments on both sides of one slash. */
  lemma SegmentsAround(a: string, b: string)
    ensures Segments(a + "/" + b) == Segments(a) + Segments(b)
  {
    assert a + "/" + b == a + ['/'] + b;
    SplitOnAppend(a, b, '/');
    NonEmptyAppend(SplitOn(a, '/'), SplitOn(b, '/'));
  }

  /** A doubled slash adds no crumb. */
  lemma RepeatedSlash(a: string, b: string)
    ensures Segments(a + "//" + b) == Segments(a + "/" + b)
  {
    assert a + "//" + b == a + "/" + ("/" + b);
    SegmentsAround(a, "/" + b);
    assert "/" + b == [] + "/" + b;
    SegmentsAround([], b);
    SegmentsAround(a, b);
  }

  /** The path built from the first `k` segments splits back into them. */
  lemma {:induction false} SegmentsOfPrefix(segs: seq<string>, k: nat)
    requires forall j :: 0 <= j < |segs| ==> segs[j] != [] && '/' !in segs[j]
    requires k <= |segs|
    ensures Segments(PathOf(segs[..k])) == segs[..k]
  {
    if k == 0 {
      assert PathOf(segs[..0]) == [];
      assert SplitOn([], '/') == [[]];
      assert NonEmpty([[]]) == [];
    } else {
      var n := k - 1;
      SegmentsOfPrefix(segs, n);
      PathOfSnoc(segs, n);
      SegmentsAround(PathOf(segs[..n]), segs[n]);
      SingleSegment(segs[n]);
      assert segs[..k] == segs[..n] + [segs[n]];
    }
  }

  /** The path built from segments splits back into the same segments. */
  lemma SegmentsOfPath(segs: seq<string>)
    requires forall k :: 0 <= k < |segs| ==> segs[k] != [] && '/' !in segs[k]
    ensures Segments(PathOf(segs)) == segs
  {
    SegmentsOfPrefix(segs, |segs|);
    assert segs[..|segs|] == segs;
  }

  /** A non-empty name without a slash is one segment. */
  lemma SingleSegment(name: string)
    requires name != [] && '/' !in name
    ensures Segments(name) == [name]
  {
    SplitOnAbsent(name, '/');
    assert [name][..0] == [] && NonEmpty([]) == [];
    assert NonEmpty([name]) == [] + [name];
  }

  /** Following crumb `k` gives the trail of its first `k + 1` crumbs. */
  lemma CrumbLeadsBack(pathname: string, k: nat)
    requires k <= |Segments(pathname)|
    ensures Segments(PathOf(Segments(pathname)[..k])) == Segments(pathname)[..k]
  {
    SegmentsShape(pathname);
    SegmentsOfPrefix(Segments(pathname), k);
  }
}
