/** The bookkeeping of the CI pipeline (backend/cicd/qai-pipeline.js): where
    the pull-request number comes from, how generated scenarios are grouped into
    one suite per persona and recorded, how suite runs are tallied, the rules
    that turn test outcomes into a verdict, the scenario file for the agents and
    the truncation of the codebase summary. The calls to GitHub, OpenAI, the
    database and child processes are parameters: their answers are inputs. */
module Pipeline {
  import opened Wrappers
  import opened Text

  // ---------------------------------------------------------------------------
  // Pull-request number
  // ---------------------------------------------------------------------------

  /** The event file named by `GITHUB_EVENT_PATH`: unreadable or not JSON (the
      read or the parse throws), or parsed, with its `number` if it has one. */
  datatype EventFile = Unreadable | EventJson(number: Option<int>)

  /** The value `getPRNumber` returns: the environment string, the event's
      `number` (`undefined` when it has none) or `null`. */
  datatype PrNumber = EnvNumber(text: string) | EventNumber(number: Option<int>) | NullNumber

  /** A JavaScript environment string is truthy when set and non-empty. */
  predicate IsSet(env: Option<string>) {
    env.Some? && env.value != ""
  }

  /** `getPRNumber`; `None` when reading or parsing the event file throws. */
  function GetPRNumber(eventNumber: Option<string>, eventPath: Option<string>, event: EventFile): (r: Option<PrNumber>)
    ensures IsSet(eventNumber) ==> r == Some(EnvNumber(eventNumber.value))
    ensures r == Some(NullNumber) <==> !IsSet(eventNumber) && !IsSet(eventPath)
    ensures r.None? <==> !IsSet(eventNumber) && IsSet(eventPath) && event.Unreadable?
    ensures !IsSet(eventNumber) && IsSet(eventPath) && event.EventJson? ==> r == Some(EventNumber(event.number))
  {
    if IsSet(eventNumber) then Some(EnvNumber(eventNumber.value))
    else if IsSet(eventPath) then
      match event
      case Unreadable => None
      case EventJson(n) => Some(EventNumber(n))
    else Some(NullNumber)
  }

  /** The text a template literal makes of a PR number. */
  function PrText(pr: PrNumber): string {
    match pr
    case EnvNumber(s) => s
    case EventNumber(None) => "undefined"
    case EventNumber(Some(n)) => if n < 0 then "-" + Decimal(-n) else Decimal(n)
    case NullNumber => "null"
  }

  // ---------------------------------------------------------------------------
  // Scenarios and persona groups
  // ---------------------------------------------------------------------------

  /** A generated test scenario. */
  datatype Scenario = Scenario(
    description: string,
    priority: string,
    kind: string,
    persona: Option<string>,
    steps: seq<string>)

  /** `scenario.persona || 'default'`. */
  function PersonaKey(s: Scenario): (k: string)
    ensures k != ""
    ensures IsSet(s.persona) ==> k == s.persona.value
    ensures !IsSet(s.persona) ==> k == "default"
  {
    if IsSet(s.persona) then s.persona.value else "default"
  }

  /** The persona key of each scenario, in order. */
  function Personas(ss: seq<Scenario>): (keys: seq<string>)
    ensures |keys| == |ss|
    ensures forall i :: 0 <= i < |ss| ==> keys[i] == PersonaKey(ss[i])
  {
    if ss == [] then [] else Personas(ss[..|ss| - 1]) + [PersonaKey(ss[|ss| - 1])]
  }

  /** The scenarios of persona `p`, in their order. */
  function OfPersona(ss: seq<Scenario>, p: string): seq<Scenario> {
    if ss == [] then []
    else OfPersona(ss[..|ss| - 1], p) + (if PersonaKey(ss[|ss| - 1]) == p then [ss[|ss| - 1]] else [])
  }

  /** The groups the `reduce` builds: each scenario appended to its persona's
      list, a new list being started for a persona not seen before. */
  function Grouped(ss: seq<Scenario>): map<string, seq<Scenario>> {
    if ss == [] then map[]
    else
      var groups := Grouped(ss[..|ss| - 1]);
      var s := ss[|ss| - 1];
      var p := PersonaKey(s);
      if p in groups then groups[p := groups[p] + [s]] else groups[p := [s]]
  }

  /** The personas in the order they first appear, the order in which
      `Object.entries` lists the groups. */
  function PersonaOrder(ss: seq<Scenario>): seq<string> {
    if ss == [] then []
    else
      var order := PersonaOrder(ss[..|ss| - 1]);
      var p := PersonaKey(ss[|ss| - 1]);
      if p in order then order else order + [p]
  }

  /** A scenario belongs to the list of persona `p` exactly when it is one of
      the scenarios and its persona is `p`. */
  lemma {:induction false} OfPersonaMembers(ss: seq<Scenario>, p: string, s: Scenario)
    ensures s in OfPersona(ss, p) <==> s in ss && PersonaKey(s) == p
  {
    if ss != [] {
      var init := ss[..|ss| - 1];
      OfPersonaMembers(init, p, s);
      assert ss == init + [ss[|ss| - 1]];
    }
  }

  lemma {:induction false} OfPersonaAbsent(ss: seq<Scenario>, p: string)
    requires p !in Personas(ss)
    ensures OfPersona(ss, p) == []
  {
    if ss != [] {
      OfPersonaAbsent(ss[..|ss| - 1], p);
    }
  }

  /** Every scenario lands in exactly one group, that of its persona: there is
      a group for each persona present and for no other, the groups are listed
      in first-appearance order, and each holds exactly that persona's scenarios
      in their original order. */
  lemma {:induction false} GroupedSpec(ss: seq<Scenario>, p: string)
    ensures p in Grouped(ss) <==> p in Personas(ss)
    ensures p in PersonaOrder(ss) <==> p in Personas(ss)
    ensures p in Grouped(ss) ==> Grouped(ss)[p] == OfPersona(ss, p)
  {
    if ss != [] {
      var init := ss[..|ss| - 1];
      GroupedSpec(init, p);
      if p !in Personas(init) {
        OfPersonaAbsent(init, p);
      }
    }
  }

  /** Each persona appears once in the order of the groups. */
  lemma {:induction false} PersonaOrderDistinct(ss: seq<Scenario>)
    ensures forall i, j :: 0 <= i < j < |PersonaOrder(ss)| ==> PersonaOrder(ss)[i] != PersonaOrder(ss)[j]
  {
    if ss != [] {
      PersonaOrderDistinct(ss[..|ss| - 1]);
    }
  }

  // ---------------------------------------------------------------------------
  // The grouping as written, on a plain JavaScript object
  // ---------------------------------------------------------------------------

  /** The properties every plain object inherits from `Object.prototype`. */
  const PrototypeMembers: set<string> := {
    "constructor", "__proto__", "hasOwnProperty", "isPrototypeOf", "propertyIsEnumerable",
    "toLocaleString", "toString", "valueOf",
    "__defineGetter__", "__defineSetter__", "__lookupGetter__", "__lookupSetter__"}

  /** The `reduce` as written, over the object literal `{}`: for a persona with
      no own property yet, `groups[persona]` finds the inherited member when
      the persona names one; that value is truthy, so no list is created, and
      calling `push` on it throws (`None`). */
  function GroupedAsWritten(ss: seq<Scenario>): Option<map<string, seq<Scenario>>> {
    if ss == [] then Some(map[])
    else
      match GroupedAsWritten(ss[..|ss| - 1])
      case None => None
      case Some(groups) =>
        var s := ss[|ss| - 1];
        var p := PersonaKey(s);
        if p in groups then Some(groups[p := groups[p] + [s]])
        else if p in PrototypeMembers then None
        else Some(groups[p := [s]])
  }

  /** The grouping as written agrees with the intended one except that it
      throws as soon as any persona names an inherited member. */
  lemma {:induction false} GroupedAsWrittenSpec(ss: seq<Scenario>)
    ensures GroupedAsWritten(ss) ==
      (if exists p :: p in Personas(ss) && p in PrototypeMembers then None else Some(Grouped(ss)))
  {
    if ss != [] {
      var init := ss[..|ss| - 1];
      GroupedAsWrittenSpec(init);
      var p := PersonaKey(ss[|ss| - 1]);
      GroupedSpec(init, p);
    }
  }

  /** Once a persona names an inherited member, the grouping as written throws
      whatever scenarios follow. */
  lemma ThrowPersists(ss: seq<Scenario>, i: nat)
    requires i <= |ss| && GroupedAsWritten(ss[..i]).None?
    ensures GroupedAsWritten(ss).None?
  {
    var pre := ss[..i];
    GroupedAsWrittenSpec(pre);
    var p :| p in Personas(pre) && p in PrototypeMembers;
    var k :| 0 <= k < i && Personas(pre)[k] == p;
    assert pre[k] == ss[k];
    assert Personas(ss)[k] == p;
    GroupedAsWrittenSpec(ss);
  }

  /** The `reduce` as written, scenario by scenario on the accumulator: a
      persona with no own list yet either names an inherited member, and the
      `push` throws, or gets a fresh list. When nothing throws, the groups are
      the intended ones, listed in first-appearance order. */
  method GroupByPersona(scenarios: seq<Scenario>)
      returns (thrown: bool, groups: map<string, seq<Scenario>>, order: seq<string>)
    ensures thrown <==> GroupedAsWritten(scenarios).None?
    ensures !thrown ==> groups == Grouped(scenarios) && order == PersonaOrder(scenarios)
  {
    groups, order := map[], [];
    for i := 0 to |scenarios|
      invariant GroupedAsWritten(scenarios[..i]) == Some(groups) && order == PersonaOrder(scenarios[..i])
    {
      assert scenarios[..i + 1][..i] == scenarios[..i];
      var s := scenarios[i];
      var p := if IsSet(s.persona) then s.persona.value else "default";
      assert p == PersonaKey(scenarios[..i + 1][i]);
      ghost var before := groups;
      if p !in groups {
        if p in PrototypeMembers {
          ThrowPersists(scenarios, i + 1);
          return true, groups, order;
        }
        groups := groups[p := []];
        assert groups[p] + [s] == [s];
      }
      groups := groups[p := groups[p] + [s]];
      assert groups == if p in before then before[p := before[p] + [s]] else before[p := [s]];
      if p !in order {
        order := order + [p];
      }
    }
    assert scenarios[..|scenarios|] == scenarios;
    GroupedAsWrittenSpec(scenarios);
    thrown := false;
  }

  /** A single scenario whose persona is `constructor` makes the upload fail
      before any suite is created. */
  lemma ConstructorPersonaThrows()
    ensures GroupedAsWritten([Scenario("Opens the page", "high", "ui", Some("constructor"), [])]).None?
  {
    var ss := [Scenario("Opens the page", "high", "ui", Some("constructor"), [])];
    assert ss[..0] == [];
  }

  // ---------------------------------------------------------------------------
  // Upload of the scenarios
  // ---------------------------------------------------------------------------

  /** The tally stored as `overall_result`. */
  datatype Tally = Tally(passed: nat, total: nat)

  /** A row of the `results` table; `overall` is `None` while it is `{}`. */
  datatype ResultRow = ResultRow(prLink: string, prName: string, runStatus: string, overall: Option<Tally>)

  /** The row inserted for a pull request. */
  function PendingResult(repo: seq<string>, pr: PrNumber): (row: ResultRow)
    ensures row.runStatus == "PENDING" && row.overall.None?
    ensures StartsWith(row.prLink, "https://github.com/") && EndsWith(row.prLink, PrText(pr))
  {
    var link := "https://github.com/" + (Join(repo, '/') + "/pull/" + PrText(pr));
    AppendParts("https://github.com/", Join(repo, '/') + "/pull/" + PrText(pr));
    EndsWithConcat(Join(repo, '/') + "/pull/", PrText(pr));
    EndsWithConcat("https://github.com/", Join(repo, '/') + "/pull/" + PrText(pr));
    EndsWithTrans(link, Join(repo, '/') + "/pull/" + PrText(pr), PrText(pr));
    ResultRow(link, "PR #" + PrText(pr), "PENDING", None)
  }

  datatype SuiteRecord = SuiteRecord(resultId: int, name: string)

  datatype TestRecord = TestRecord(suiteId: int, name: string, testSuccess: Option<bool>, runStatus: string, steps: seq<string>)

  /** The test row of a scenario in the suite `suiteId`: named by its
      description, with no outcome yet. */
  function PendingTest(suiteId: int, s: Scenario): TestRecord {
    TestRecord(suiteId, s.description, None, "PENDING", [])
  }

  /** The test rows of one group. */
  function GroupTests(group: seq<Scenario>, suiteId: int): seq<TestRecord> {
    ConcatMap(group, s => [PendingTest(suiteId, s)])
  }

  /** The suite insert of each persona answers with the new id or an error. */
  type SuiteInsert = string -> Option<int>

  /** `this.suiteIds` after the loop: the personas whose suite was created. */
  function SuiteIdsOf(order: seq<string>, insert: SuiteInsert): map<string, int> {
    if order == [] then map[]
    else
      var ids := SuiteIdsOf(order[..|order| - 1], insert);
      var p := order[|order| - 1];
      if insert(p).Some? then ids[p := insert(p).value] else ids
  }

  /** The tests insert of each persona succeeds (`true`) or answers with an
      error, which is only logged, and then none of its rows exist. */
  type TestsInsert = string -> bool

  /** The test rows of one persona that exist afterwards: none when its suite
      insert or its tests insert failed. */
  function PersonaTests(groups: map<string, seq<Scenario>>, insert: SuiteInsert, testsOk: TestsInsert, p: string): seq<TestRecord> {
    if p in groups && insert(p).Some? && testsOk(p) then GroupTests(groups[p], insert(p).value) else []
  }

  function CreatedTests(order: seq<string>, groups: map<string, seq<Scenario>>, insert: SuiteInsert, testsOk: TestsInsert): seq<TestRecord> {
    ConcatMap(order, p => PersonaTests(groups, insert, testsOk, p))
  }

  function SuiteName(p: string): string {
    p + " Agent Suite"
  }

  lemma OrderInGroups(ss: seq<Scenario>)
    ensures forall p :: p in PersonaOrder(ss) ==> p in Grouped(ss)
  {
    forall p | p in PersonaOrder(ss) ensures p in Grouped(ss) {
      GroupedSpec(ss, p);
    }
  }

  lemma GroupTestsMember(group: seq<Scenario>, suiteId: int, r: TestRecord)
    ensures r in GroupTests(group, suiteId) <==> exists s :: s in group && r == PendingTest(suiteId, s)
  {
    var f := s => [PendingTest(suiteId, s)];
    ConcatMapMember(group, f, r);
    if exists s :: s in group && r == PendingTest(suiteId, s) {
      var s :| s in group && r == PendingTest(suiteId, s);
      var i :| 0 <= i < |group| && group[i] == s;
      assert r in f(group[i]);
    }
  }

  /** The test rows inserted are exactly the pending rows of the scenarios
      whose persona's suite was created and whose tests insert succeeded,
      each in that suite. */
  lemma CreatedTestsSpec(ss: seq<Scenario>, insert: SuiteInsert, testsOk: TestsInsert, r: TestRecord)
    ensures r in CreatedTests(PersonaOrder(ss), Grouped(ss), insert, testsOk) <==>
      exists s :: s in ss && insert(PersonaKey(s)).Some? && testsOk(PersonaKey(s)) &&
                  r == PendingTest(insert(PersonaKey(s)).value, s)
  {
    var order, groups := PersonaOrder(ss), Grouped(ss);
    var f := p => PersonaTests(groups, insert, testsOk, p);
    ConcatMapMember(order, f, r);
    if r in CreatedTests(order, groups, insert, testsOk) {
      var i :| 0 <= i < |order| && r in f(order[i]);
      var p := order[i];
      GroupedSpec(ss, p);
      GroupTestsMember(groups[p], insert(p).value, r);
      var s :| s in groups[p] && r == PendingTest(insert(p).value, s);
      OfPersonaMembers(ss, p, s);
    }
    if exists s :: s in ss && insert(PersonaKey(s)).Some? && testsOk(PersonaKey(s)) &&
                   r == PendingTest(insert(PersonaKey(s)).value, s) {
      var s :| s in ss && insert(PersonaKey(s)).Some? && testsOk(PersonaKey(s)) &&
               r == PendingTest(insert(PersonaKey(s)).value, s);
      var p := PersonaKey(s);
      var k :| 0 <= k < |ss| && ss[k] == s;
      assert Personas(ss)[k] == p;
      GroupedSpec(ss, p);
      OfPersonaMembers(ss, p, s);
      GroupTestsMember(groups[p], insert(p).value, r);
      var i :| 0 <= i < |order| && order[i] == p;
      assert r in f(order[i]);
    }
  }

  /** The loop over the groups: a suite insert for each persona, in order, and
      the test rows of each persona whose suite was created and whose tests
      insert succeeded. */
  method CreateSuites(id: int, order: seq<string>, groups: map<string, seq<Scenario>>, insert: SuiteInsert,
                      testsOk: TestsInsert)
      returns (ids: map<string, int>, suiteRecords: seq<SuiteRecord>, testRecords: seq<TestRecord>)
    requires forall p :: p in order ==> p in groups
    ensures ids == SuiteIdsOf(order, insert)
    ensures suiteRecords == seq(|order|, i requires 0 <= i < |order| => SuiteRecord(id, SuiteName(order[i])))
    ensures testRecords == CreatedTests(order, groups, insert, testsOk)
  {
    ids, suiteRecords, testRecords := map[], [], [];
    var f := p => PersonaTests(groups, insert, testsOk, p);
    for j := 0 to |order|
      invariant ids == SuiteIdsOf(order[..j], insert)
      invariant testRecords == ConcatMap(order[..j], f)
      invariant |suiteRecords| == j
      invariant forall i :: 0 <= i < j ==> suiteRecords[i] == SuiteRecord(id, SuiteName(order[i]))
    {
      assert order[..j + 1][..j] == order[..j];
      ConcatMapSnoc(order, j, f);
      var p := order[j];
      suiteRecords := suiteRecords + [SuiteRecord(id, SuiteName(p))];
      var created := insert(p);
      if created.Some? {
        ids := ids[p := created.value];
        if testsOk(p) {
          testRecords := testRecords + GroupTests(groups[p], created.value);
        }
      }
    }
    assert order[..|order|] == order;
  }

  /** The pipeline object: the PR number fixed at construction, the ids its
      methods record, and the `results` rows it writes. */
  class QaiPipeline {
    var prNumber: PrNumber
    var resultId: Option<int>
    var suiteIds: Option<map<string, int>>
    var results: map<int, ResultRow>

    constructor(pr: PrNumber, results0: map<int, ResultRow>)
      ensures prNumber == pr && resultId.None? && suiteIds.None? && results == results0
    {
      prNumber := pr;
      resultId := None;
      suiteIds := None;
      results := results0;
    }

    /** `uploadScenariosToDatabase`. `resultInsert` is the id of the inserted
        result row or `None` for an insert error; `insert` answers each suite
        insert and `testsOk` each tests insert. Returns the suite rows it tries
        to insert and the test rows that exist afterwards. A grouping that throws is caught: the result row stays, and
        no suite is created. */
    method UploadScenarios(scenarios: seq<Scenario>, repo: seq<string>, resultInsert: Option<int>, insert: SuiteInsert,
                           testsOk: TestsInsert)
        returns (suiteRecords: seq<SuiteRecord>, testRecords: seq<TestRecord>)
      modifies this
      ensures prNumber == old(prNumber)
      ensures resultInsert.None? ==>
        resultId == old(resultId) && suiteIds == old(suiteIds) && results == old(results) &&
        suiteRecords == [] && testRecords == []
      ensures resultInsert.Some? ==>
        resultId == resultInsert &&
        results == old(results)[resultInsert.value := PendingResult(repo, old(prNumber))]
      ensures resultInsert.Some? && GroupedAsWritten(scenarios).None? ==>
        suiteIds == old(suiteIds) && suiteRecords == [] && testRecords == []
      ensures resultInsert.Some? && GroupedAsWritten(scenarios).Some? ==>
        suiteIds == Some(SuiteIdsOf(PersonaOrder(scenarios), insert)) &&
        suiteRecords == seq(|PersonaOrder(scenarios)|, i requires 0 <= i < |PersonaOrder(scenarios)| =>
                              SuiteRecord(resultInsert.value, SuiteName(PersonaOrder(scenarios)[i]))) &&
        testRecords == CreatedTests(PersonaOrder(scenarios), Grouped(scenarios), insert, testsOk)
    {
      suiteRecords, testRecords := [], [];
      if resultInsert.None? {
        return;
      }
      var id := resultInsert.value;
      results := results[id := PendingResult(repo, prNumber)];
      resultId := Some(id);
      var thrown, groups, order := GroupByPersona(scenarios);
      if thrown {
        return;
      }
      OrderInGroups(scenarios);
      var ids;
      ids, suiteRecords, testRecords := CreateSuites(id, order, groups, insert, testsOk);
      suiteIds := Some(ids);
    }

    /** `runTests`. `suites` is the answer of the suite query (`None` for
        `null`), `runOf` the way each suite's agent process ends, `saveOk`
        whether writing `test-results.json` succeeds, and `final` the record
        `verifyFinalResults` reads. */
    method RunTests(suites: Option<seq<SuiteRef>>, runOf: int -> RunOutcome, saveOk: bool, final: Option<FinalRecord>)
        returns (success: bool, runResults: seq<SuiteResult>)
      modifies this
      ensures prNumber == old(prNumber) && resultId == old(resultId) && suiteIds == old(suiteIds)
      ensures resultId.None? ==> !success && runResults == [] && results == old(results)
      ensures resultId.Some? && (suites.None? || suites.value == []) ==>
        !success && runResults == [] && results == MarkFailed(old(results), resultId.value)
      ensures resultId.Some? && suites.Some? && suites.value != [] ==>
        |runResults| == |suites.value| &&
        (forall i :: 0 <= i < |runResults| ==> runResults[i] == RunSuite(suites.value[i], runOf(suites.value[i].id)))
      ensures resultId.Some? && suites.Some? && suites.value != [] && !saveOk ==>
        !success && results == MarkFailed(old(results), resultId.value)
      ensures resultId.Some? && suites.Some? && suites.value != [] && saveOk ==>
        results == old(results) && (success <==> VerifyFinalResults(final) == Some(true))
    {
      if resultId.None? {
        return false, [];
      }
      if suites.None? || suites.value == [] {
        results := MarkFailed(results, resultId.value);
        return false, [];
      }
      runResults := RunSuites(suites.value, runOf);
      if !saveOk {
        results := MarkFailed(results, resultId.value);
        return false, runResults;
      }
      success := VerifyFinalResults(final) == Some(true);
    }

    /** `updateTestResults`, from the `test_success` values of the suites'
        tests (`None` when the query answers `null`). */
    method UpdateTestResults(allTests: Option<seq<Option<bool>>>)
      modifies this
      ensures prNumber == old(prNumber) && resultId == old(resultId) && suiteIds == old(suiteIds)
      ensures results == (match ResultUpdate(allTests)
                          case None => old(results)
                          case Some(update) =>
                            if resultId.Some? then SetOutcome(old(results), resultId.value, update.0, update.1)
                            else old(results))
    {
      var update := ResultUpdate(allTests);
      if update.Some? && resultId.Some? {
        results := SetOutcome(results, resultId.value, update.value.0, update.value.1);
      }
    }
  }

  // ---------------------------------------------------------------------------
  // Running the suites
  // ---------------------------------------------------------------------------

  /** A row of the suite query. */
  datatype SuiteRef = SuiteRef(id: int, name: string)

  /** How the agent process of a suite ends: its exit code (with what it wrote
      to standard output and standard error; `None` is the `null` code of a
      process ended by a signal), a start failure, or the timer. */
  datatype RunOutcome = Exited(code: Option<int>, output: string, errorOutput: string) | StartFailed(message: string) | TimedOut

  /** One entry of `results`: the output on success, the error message
      otherwise. */
  datatype SuiteResult = SuiteResult(suiteId: int, suiteName: string, success: bool, detail: string)

  /** `${code}`: the number in decimal, or `null`. */
  function CodeText(code: Option<int>): string {
    match code
    case None => "null"
    case Some(n) => if n < 0 then "-" + Decimal(-n) else Decimal(n)
  }

  /** The entry of one suite: a success exactly when the process exits with 0. */
  function RunSuite(suite: SuiteRef, outcome: RunOutcome): (r: SuiteResult)
    ensures r.suiteId == suite.id && r.suiteName == suite.name
    ensures r.success <==> outcome.Exited? && outcome.code == Some(0)
    ensures r.success ==> r.detail == outcome.output
    ensures outcome.Exited? && outcome.code != Some(0) ==>
      r.detail == "Agent process exited with code " + CodeText(outcome.code) + ": " + outcome.errorOutput
    ensures outcome.StartFailed? ==> r.detail == "Failed to start agent process: " + outcome.message
    ensures outcome.TimedOut? ==> r.detail == "Agent execution timed out"
  {
    match outcome
    case Exited(code, output, errorOutput) =>
      if code == Some(0) then SuiteResult(suite.id, suite.name, true, output)
      else SuiteResult(suite.id, suite.name, false, "Agent process exited with code " + CodeText(code) + ": " + errorOutput)
    case StartFailed(message) => SuiteResult(suite.id, suite.name, false, "Failed to start agent process: " + message)
    case TimedOut => SuiteResult(suite.id, suite.name, false, "Agent execution timed out")
  }

  /** The loop over the suites: one entry per suite, in query order; a failing
      suite does not stop the loop. */
  method RunSuites(suites: seq<SuiteRef>, runOf: int -> RunOutcome) returns (rs: seq<SuiteResult>)
    ensures |rs| == |suites|
    ensures forall i :: 0 <= i < |rs| ==> rs[i] == RunSuite(suites[i], runOf(suites[i].id))
  {
    rs := [];
    for i := 0 to |suites|
      invariant |rs| == i
      invariant forall k :: 0 <= k < i ==> rs[k] == RunSuite(suites[k], runOf(suites[k].id))
    {
      rs := rs + [RunSuite(suites[i], runOf(suites[i].id))];
    }
  }

  /** `results.filter(r => r.success).length`. The source only prints this
      count; the verdict comes from `verifyFinalResults`. */
  function Passed(rs: seq<SuiteResult>): (n: nat)
    ensures n <= |rs|
  {
    if rs == [] then 0 else Passed(rs[..|rs| - 1]) + (if rs[|rs| - 1].success then 1 else 0)
  }

  /** The number of failed entries, which the source only prints. */
  function Failed(rs: seq<SuiteResult>): nat {
    if rs == [] then 0 else Failed(rs[..|rs| - 1]) + (if rs[|rs| - 1].success then 0 else 1)
  }

  /** `failed = results.length - passed` is the number of failed entries, so
      the two counts add up to the number of suites. Both counts only feed the
      printed report. */
  lemma {:induction false} PassedFailed(rs: seq<SuiteResult>)
    ensures Passed(rs) + Failed(rs) == |rs|
    ensures Passed(rs) == |rs| <==> forall i :: 0 <= i < |rs| ==> rs[i].success
  {
    if rs != [] {
      var init := rs[..|rs| - 1];
      PassedFailed(init);
      if Passed(rs) == |rs| {
        forall i | 0 <= i < |rs| ensures rs[i].success {
          if i < |init| { assert rs[i] == init[i]; }
        }
      }
      if forall i :: 0 <= i < |rs| ==> rs[i].success {
        assert forall i :: 0 <= i < |init| ==> init[i].success by {
          forall i | 0 <= i < |init| ensures init[i].success { assert init[i] == rs[i]; }
        }
      }
    }
  }

  /** The failure path of `runTests`: the result row, if any, is marked FAILED. */
  function MarkFailed(results: map<int, ResultRow>, id: int): (r: map<int, ResultRow>)
    ensures r.Keys == results.Keys
    ensures forall other :: other in results && other != id ==> r[other] == results[other]
    ensures id in results ==> r[id] == results[id].(runStatus := "FAILED")
  {
    if id in results then results[id := results[id].(runStatus := "FAILED")] else results
  }

  // ---------------------------------------------------------------------------
  // Verdicts
  // ---------------------------------------------------------------------------

  /** The number of tests whose `test_success` is `true`. */
  function CountTrue(tests: seq<Option<bool>>): (n: nat)
    ensures n <= |tests|
  {
    if tests == [] then 0 else CountTrue(tests[..|tests| - 1]) + (if tests[|tests| - 1] == Some(true) then 1 else 0)
  }

  lemma {:induction false} CountTrueAll(tests: seq<Option<bool>>)
    ensures CountTrue(tests) == |tests| <==> forall i :: 0 <= i < |tests| ==> tests[i] == Some(true)
  {
    if tests != [] {
      var init := tests[..|tests| - 1];
      CountTrueAll(init);
      if forall i :: 0 <= i < |tests| ==> tests[i] == Some(true) {
        forall i | 0 <= i < |init| ensures init[i] == Some(true) { assert init[i] == tests[i]; }
      }
      if CountTrue(tests) == |tests| {
        forall i | 0 <= i < |tests| ensures tests[i] == Some(true) {
          if i < |init| { assert tests[i] == init[i]; }
        }
      }
    }
  }

  /** The write `updateTestResults` makes to the result row: none when there
      are no tests, otherwise PASSED when every test passed and FAILED when
      not, with the tally. */
  function ResultUpdate(allTests: Option<seq<Option<bool>>>): (r: Option<(string, Tally)>)
    ensures r.None? <==> allTests.None? || allTests.value == []
    ensures r.Some? ==> r.value.1 == Tally(CountTrue(allTests.value), |allTests.value|)
    ensures r.Some? ==> r.value.0 == "PASSED" || r.value.0 == "FAILED"
  {
    var tests := allTests.GetOr([]);
    var total := |tests|;
    var passed := CountTrue(tests);
    if total > 0 then Some((if passed == total then "PASSED" else "FAILED", Tally(passed, total))) else None
  }

  /** The status is PASSED exactly when there is a test and every one passed. */
  lemma ResultUpdateVerdict(tests: seq<Option<bool>>)
    requires tests != []
    ensures ResultUpdate(Some(tests)).Some?
    ensures ResultUpdate(Some(tests)).value.0 == "PASSED" <==> forall i :: 0 <= i < |tests| ==> tests[i] == Some(true)
  {
    CountTrueAll(tests);
  }

  function SetOutcome(results: map<int, ResultRow>, id: int, status: string, tally: Tally): (r: map<int, ResultRow>)
    ensures r.Keys == results.Keys
    ensures forall other :: other in results && other != id ==> r[other] == results[other]
    ensures id in results ==> r[id].runStatus == status && r[id].overall == Some(tally)
    ensures id in results ==> r[id].prLink == results[id].prLink && r[id].prName == results[id].prName
  {
    if id in results then results[id := results[id].(runStatus := status, overall := Some(tally))] else results
  }

  /** A suite of the final record and its tests' `test_success` values
      (`None` for a missing `tests` array). */
  datatype FinalSuite = FinalSuite(tests: Option<seq<Option<bool>>>)

  /** The result row read back with its suites and their tests. */
  datatype FinalRecord = FinalRecord(runStatus: Option<string>, suites: Option<seq<FinalSuite>>)

  function SuiteTests(s: FinalSuite): seq<Option<bool>> {
    s.tests.GetOr([])
  }

  /** All tests of the suites, suite after suite. */
  function AllTests(suites: seq<FinalSuite>): seq<Option<bool>> {
    ConcatMap(suites, SuiteTests)
  }

  /** The sum of the tests' counts over the suites. */
  function TotalTests(suites: seq<FinalSuite>): nat {
    if suites == [] then 0 else TotalTests(suites[..|suites| - 1]) + |SuiteTests(suites[|suites| - 1])|
  }

  /** The sum of the passed tests' counts over the suites. */
  function PassedTests(suites: seq<FinalSuite>): nat {
    if suites == [] then 0 else PassedTests(suites[..|suites| - 1]) + CountTrue(SuiteTests(suites[|suites| - 1]))
  }

  lemma {:induction false} CountTrueAppend(xs: seq<Option<bool>>, ys: seq<Option<bool>>)
    ensures CountTrue(xs + ys) == CountTrue(xs) + CountTrue(ys)
    decreases |ys|
  {
    if ys == [] {
      assert xs + ys == xs;
    } else {
      var zs := xs + ys;
      assert zs[..|zs| - 1] == xs + ys[..|ys| - 1];
      CountTrueAppend(xs, ys[..|ys| - 1]);
    }
  }

  /** The per-suite sums count the tests of all suites taken together. */
  lemma {:induction false} SumsOverSuites(suites: seq<FinalSuite>)
    ensures TotalTests(suites) == |AllTests(suites)|
    ensures PassedTests(suites) == CountTrue(AllTests(suites))
  {
    if suites != [] {
      var init := suites[..|suites| - 1];
      SumsOverSuites(init);
      CountTrueAppend(AllTests(init), SuiteTests(suites[|suites| - 1]));
    }
  }

  /** `verifyFinalResults`: `None` when there is no record (the method then
      returns `undefined`); otherwise success when the run status is PASSED or
      every test of every suite passed and there is at least one. */
  function VerifyFinalResults(final: Option<FinalRecord>): (r: Option<bool>)
    ensures r.None? <==> final.None?
  {
    match final
    case None => None
    case Some(record) =>
      var suites := record.suites.GetOr([]);
      Some(record.runStatus == Some("PASSED") || (PassedTests(suites) == TotalTests(suites) && TotalTests(suites) > 0))
  }

  /** Success in terms of the tests themselves. */
  lemma FinalSuccessSpec(record: FinalRecord)
    ensures VerifyFinalResults(Some(record)) == Some(true) <==>
      (record.runStatus == Some("PASSED") ||
       (AllTests(record.suites.GetOr([])) != [] &&
        forall i :: 0 <= i < |AllTests(record.suites.GetOr([]))| ==> AllTests(record.suites.GetOr([]))[i] == Some(true)))
  {
    var suites := record.suites.GetOr([]);
    SumsOverSuites(suites);
    CountTrueAll(AllTests(suites));
  }

  // ---------------------------------------------------------------------------
  // Files for the agents and the codebase summary
  // ---------------------------------------------------------------------------

  /** One entry of `test-cases.json`. */
  datatype TestCase = TestCase(id: string, name: string, description: string, priority: string, kind: string, steps: seq<string>)

  /** `${scenario.persona}`: a missing persona prints as `undefined`. */
  function PersonaText(persona: Option<string>): string {
    persona.GetOr("undefined")
  }

  function CaseId(i: nat): string {
    "suite_" + Decimal(i + 1)
  }

  function CaseOf(i: nat, s: Scenario): TestCase {
    TestCase(CaseId(i), PersonaText(s.persona) + " - " + s.kind + " testing", s.description, s.priority, s.kind, s.steps)
  }

  /** The `suites` of `test-cases.json`: one entry per scenario, in order. */
  function TestCases(scenarios: seq<Scenario>): (cases: seq<TestCase>)
    ensures |cases| == |scenarios|
  {
    seq(|scenarios|, i requires 0 <= i < |scenarios| => CaseOf(i, scenarios[i]))
  }

  /** The entries are numbered from `suite_1`, carry their scenario's fields
      and have distinct ids. */
  lemma TestCasesSpec(scenarios: seq<Scenario>, i: nat, j: nat)
    requires i < |scenarios| && j < |scenarios|
    ensures TestCases(scenarios)[i].id == "suite_" + Decimal(i + 1)
    ensures TestCases(scenarios)[i].name == PersonaText(scenarios[i].persona) + " - " + scenarios[i].kind + " testing"
    ensures TestCases(scenarios)[i].priority == scenarios[i].priority
    ensures TestCases(scenarios)[i].kind == scenarios[i].kind
    ensures TestCases(scenarios)[i].description == scenarios[i].description
    ensures TestCases(scenarios)[i].steps == scenarios[i].steps
    ensures i != j ==> TestCases(scenarios)[i].id != TestCases(scenarios)[j].id
  {
    if i != j && CaseId(i) == CaseId(j) {
      assert CaseId(i)[6..] == Decimal(i + 1);
      assert CaseId(j)[6..] == Decimal(j + 1);
      DecimalInjective(i + 1, j + 1);
    }
  }

  const MaxSummaryLines := 500

  /** The two lines of the entry appended to the summary on a merge. */
  function EntryTitle(stamp: string): string {
    "=== " + stamp + " ==="
  }

  function EntryNote(pr: PrNumber): string {
    "PR #" + PrText(pr) + " merged after QAI testing"
  }

  function SummaryEntry(stamp: string, pr: PrNumber): string {
    "\n" + (EntryTitle(stamp) + "\n" + (EntryNote(pr) + "\n"))
  }

  /** `updateCodebaseSummary`: the summary with the entry appended, keeping
      only the last 500 lines. */
  function UpdatedSummary(summary: string, entry: string): string {
    Join(LastN(SplitOn(summary + entry, '\n'), MaxSummaryLines), '\n')
  }

  /** The update keeps a tail of the text; nothing is lost when the text has
      no more than 500 lines. */
  lemma UpdatedSummaryTail(summary: string, entry: string)
    ensures EndsWith(summary + entry, UpdatedSummary(summary, entry))
    ensures |SplitOn(summary + entry, '\n')| <= MaxSummaryLines ==> UpdatedSummary(summary, entry) == summary + entry
  {
    JoinLastN(summary + entry, '\n', MaxSummaryLines);
  }

  /** The lines of the result are the last 500 lines of the text, so there are
      at most 500 of them. */
  lemma UpdatedSummaryLines(summary: string, entry: string)
    ensures SplitOn(UpdatedSummary(summary, entry), '\n') == LastN(SplitOn(summary + entry, '\n'), MaxSummaryLines)
    ensures |SplitOn(UpdatedSummary(summary, entry), '\n')| <= MaxSummaryLines
  {
    var parts := SplitOn(summary + entry, '\n');
    var kept := LastN(parts, MaxSummaryLines);
    SplitOnNoSep(summary + entry, '\n');
    assert kept != [] by {
      if |parts| > MaxSummaryLines {
        assert |kept| == MaxSummaryLines;
      }
    }
    forall q | q in kept ensures '\n' !in q {
      assert q in parts;
    }
    SplitJoin(kept, '\n');
  }

  lemma NoBreakConcat(a: string, b: string)
    requires '\n' !in a && '\n' !in b
    ensures '\n' !in a + b
  {
  }

  /** The entry splits into its two lines and the empty text after the final
      line break. */
  lemma EntryLines(stamp: string, pr: PrNumber)
    requires '\n' !in stamp && '\n' !in PrText(pr)
    ensures SplitOn(EntryTitle(stamp) + "\n" + (EntryNote(pr) + "\n"), '\n') == [EntryTitle(stamp), EntryNote(pr), []]
  {
    var title, note := EntryTitle(stamp), EntryNote(pr);
    NoBreakConcat("=== ", stamp);
    NoBreakConcat("=== " + stamp, " ===");
    NoBreakConcat("PR #", PrText(pr));
    NoBreakConcat("PR #" + PrText(pr), " merged after QAI testing");
    SplitOnAbsent(title, '\n');
    SplitOnAbsent(note, '\n');
    assert note + "\n" == note + ['\n'] + [];
    SplitOnAppend(note, [], '\n');
    SplitOnAppend(title, note + "\n", '\n');
  }

  /** The new entry always survives the truncation: the result ends with the
      entry's two lines whenever the stamp and the PR text hold no line break. */
  lemma EntryKept(summary: string, stamp: string, pr: PrNumber)
    requires '\n' !in stamp && '\n' !in PrText(pr)
    ensures EndsWith(UpdatedSummary(summary, SummaryEntry(stamp, pr)), SummaryEntry(stamp, pr)[1..])
  {
    var rest := EntryTitle(stamp) + "\n" + (EntryNote(pr) + "\n");
    assert SummaryEntry(stamp, pr)[1..] == rest;
    assert summary + SummaryEntry(stamp, pr) == summary + ['\n'] + rest;
    EntryLines(stamp, pr);
    var tail := SplitOn(rest, '\n');
    JoinSplit(rest, '\n');
    SplitOnAppend(summary, rest, '\n');
    var parts := SplitOn(summary + ['\n'] + rest, '\n');
    assert parts == SplitOn(summary, '\n') + tail;
    var kept := LastN(parts, MaxSummaryLines);
    assert kept[|kept| - 3..] == tail;
    JoinSuffix(kept, |kept| - 3, '\n');
  }
}
