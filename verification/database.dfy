/** Saving an agent's results to the database (backend/agents/database.py):
    the suite row receives the suite status and result, and each reported test
    is matched by name to a row of the suite's tests and receives its pass flag,
    steps and recording URL. Every exception is caught and reported, never
    raised, so a failure leaves the writes made before it in place. */
module ResultStore {
  import opened Wrappers
  import opened Text

  /** The column values the function reads or writes. */
  datatype Value = Null | Bool(b: bool) | Int(i: int) | Str(s: string)

  /** A row of a table, or a dictionary of the agent's result: column to value. */
  type Row = map<string, Value>

  /** `row.get(key)`: a missing key reads as `None`. */
  function Get(row: Row, key: string): (v: Value)
    ensures key !in row ==> v == Null
  {
    if key in row then row[key] else Null
  }

  /** Python's `str()` of a value, as used for the name keys. */
  function Repr(v: Value): (r: string)
    ensures v.Str? ==> r == v.s
    ensures v.Null? ==> r == "None"
  {
    match v
    case Null => "None"
    case Bool(b) => if b then "True" else "False"
    case Int(i) => if i < 0 then "-" + Decimal(-i) else Decimal(i)
    case Str(s) => s
  }

  /** The agent's result: `persona_slug` (absent when the key is missing),
      `suite_status`, `suite_result` and the list under `tests`. */
  datatype AgentResult = AgentResult(
    personaSlug: Option<string>,
    suiteStatus: Value,
    suiteResult: Value,
    tests: seq<Row>)

  /** The columns the suite update writes. */
  function SuiteUpdate(res: AgentResult): (upd: Row)
    ensures upd.Keys == {"suite_status", "suite_result"}
    ensures upd["suite_status"] == res.suiteStatus && upd["suite_result"] == res.suiteResult
  {
    map["suite_status" := res.suiteStatus, "suite_result" := res.suiteResult]
  }

  const UpdatedColumns := {"test_result", "steps", "recording_file_url"}

  /** The columns a matched test writes: the pass flag is true exactly when the
      status is the string `"passed"`. */
  function TestUpdate(t: Row): (upd: Row)
    ensures upd.Keys == UpdatedColumns
    ensures upd["test_result"] == Bool(Get(t, "status") == Str("passed"))
    ensures upd["steps"] == Get(t, "steps") && upd["recording_file_url"] == Get(t, "recording_file_url")
  {
    map["test_result" := Bool(Get(t, "status") == Str("passed")),
        "steps" := Get(t, "steps"),
        "recording_file_url" := Get(t, "recording_file_url")]
  }

  /** `update(upd).eq('id', id)`: the row with that id, if any, takes the new
      values of the updated columns and keeps the others; no other row changes. */
  function UpdateWhere(table: map<int, Row>, id: int, upd: Row): (r: map<int, Row>)
    ensures r.Keys == table.Keys
    ensures forall other :: other in table && other != id ==> r[other] == table[other]
    ensures id in table ==> forall key :: key in upd ==> Get(r[id], key) == upd[key]
    ensures id in table ==> forall key :: key !in upd ==> Get(r[id], key) == Get(table[id], key)
  {
    if id in table then table[id := table[id] + upd] else table
  }

  // ---------------------------------------------------------------------------
  // Matching tests to rows
  // ---------------------------------------------------------------------------

  /** The row of id `id` is returned by `select(...).eq('suite_id', suiteId)`. */
  predicate Selected(tests: map<int, Row>, id: int, suiteId: int) {
    id in tests && Get(tests[id], "suite_id") == Int(suiteId)
  }

  /** The name key of a row: `str(row.get('name'))`. */
  function NameKey(row: Row): string {
    Repr(Get(row, "name"))
  }

  /** `name_to_id` after the rows of the suite, taken in the order `order` the
      service returns them, have been entered one after another. */
  function NameIndex(tests: map<int, Row>, order: seq<int>, suiteId: int): map<string, int> {
    if order == [] then map[]
    else
      var index := NameIndex(tests, order[..|order| - 1], suiteId);
      var id := order[|order| - 1];
      if Selected(tests, id, suiteId) then index[NameKey(tests[id]) := id] else index
  }

  /** One update: the row id and the values written to it. */
  datatype Write = Write(id: int, upd: Row)

  /** The update a test leads to: none when its name has no row or the row's id
      is falsy (zero), otherwise its columns written to that row. */
  function WriteOf(index: map<string, int>, t: Row): (ws: seq<Write>)
    ensures |ws| <= 1
    ensures ws != [] <==> NameKey(t) in index && index[NameKey(t)] != 0
    ensures ws != [] ==> ws[0] == Write(index[NameKey(t)], TestUpdate(t))
  {
    var key := NameKey(t);
    if key in index && index[key] != 0 then [Write(index[key], TestUpdate(t))] else []
  }

  /** The updates of all tests, in order. */
  function Writes(index: map<string, int>, ts: seq<Row>): seq<Write> {
    ConcatMap(ts, t => WriteOf(index, t))
  }

  /** One more test adds its update, if any, and stays within the updates of
      all tests. */
  lemma WritesStep(index: map<string, int>, ts: seq<Row>, i: nat)
    requires i < |ts|
    ensures Writes(index, ts[..i + 1]) == Writes(index, ts[..i]) + WriteOf(index, ts[i])
    ensures Writes(index, ts[..i + 1]) <= Writes(index, ts)
    ensures Writes(index, ts)[..|Writes(index, ts[..i])|] == Writes(index, ts[..i])
  {
    var f := t => WriteOf(index, t);
    ConcatMapSnoc(ts, i, f);
    ConcatMapPrefix(ts, i, f);
    ConcatMapPrefix(ts, i + 1, f);
  }

  /** The table after the updates, applied in order. */
  function ApplyWrites(table: map<int, Row>, ws: seq<Write>): (r: map<int, Row>)
    ensures r.Keys == table.Keys
  {
    if ws == [] then table
    else UpdateWhere(ApplyWrites(table, ws[..|ws| - 1]), ws[|ws| - 1].id, ws[|ws| - 1].upd)
  }

  lemma ApplyWritesSnoc(table: map<int, Row>, ws: seq<Write>, w: Write)
    ensures ApplyWrites(table, ws + [w]) == UpdateWhere(ApplyWrites(table, ws), w.id, w.upd)
  {
    assert (ws + [w])[..|ws|] == ws;
  }

  // ---------------------------------------------------------------------------
  // The effect of a call, failures included
  // ---------------------------------------------------------------------------

  /** The database calls are numbered from 0: the suite update, the select of
      the suite's tests, then one update per matched test. `failAt == Some(k)`
      means call `k` raises; the client being absent or the persona key
      missing raise before call 0. */
  function CallsAllowed(client: bool, res: AgentResult, failAt: Option<nat>): Option<nat> {
    if !client || res.personaSlug.None? then Some(0) else failAt
  }

  /** How many test updates are made out of `n` when calls from `allowed` on raise. */
  function WritesDone(n: nat, allowed: Option<nat>): (m: nat)
    ensures m <= n
    ensures allowed.None? ==> m == n
    ensures allowed.Some? && allowed.value < 2 ==> m == 0
  {
    match allowed
    case None => n
    case Some(k) => if k < 2 then 0 else if k - 2 < n then k - 2 else n
  }

  /** The tables and the queries the function runs against. */
  class ResultTables {
    var suites: map<int, Row>
    var tests: map<int, Row>

    constructor(suites0: map<int, Row>, tests0: map<int, Row>)
      ensures suites == suites0 && tests == tests0
    {
      suites := suites0;
      tests := tests0;
    }

    /** The loop that fills `name_to_id` from the selected rows. */
    method BuildNameIndex(order: seq<int>, suiteId: int) returns (index: map<string, int>)
      ensures index == NameIndex(tests, order, suiteId)
    {
      index := map[];
      for j := 0 to |order|
        invariant index == NameIndex(tests, order[..j], suiteId)
      {
        assert order[..j + 1][..j] == order[..j];
        var id := order[j];
        if id in tests && Get(tests[id], "suite_id") == Int(suiteId) {
          index := index[NameKey(tests[id]) := id];
        }
      }
      assert order[..|order|] == order;
    }

    /** `save_agent_results_to_db`. `client` says whether the client was
        configured, `order` is the order in which the service returns the
        suite's rows, and `failAt` the call that raises, if any. The result
        says whether the body ran to its end without an exception. */
    method SaveAgentResults(client: bool, res: AgentResult, suiteId: int, order: seq<int>, failAt: Option<nat>)
        returns (completed: bool)
      modifies this
      ensures var allowed := CallsAllowed(client, res, failAt);
        suites == (if allowed == Some(0) then old(suites) else UpdateWhere(old(suites), suiteId, SuiteUpdate(res)))
      ensures var allowed := CallsAllowed(client, res, failAt);
        var ws := Writes(NameIndex(old(tests), order, suiteId), res.tests);
        tests == ApplyWrites(old(tests), ws[..WritesDone(|ws|, allowed)])
      ensures var allowed := CallsAllowed(client, res, failAt);
        var ws := Writes(NameIndex(old(tests), order, suiteId), res.tests);
        completed <==> allowed.None? || allowed.value >= 2 + |ws|
    {
      var allowed := CallsAllowed(client, res, failAt);
      ghost var ws := Writes(NameIndex(tests, order, suiteId), res.tests);
      if allowed == Some(0) {
        return false;
      }
      suites := UpdateWhere(suites, suiteId, SuiteUpdate(res));
      if allowed == Some(1) {
        assert ws[..0] == [];
        return false;
      }
      var index := BuildNameIndex(order, suiteId);
      completed := UpdateTests(index, res.tests, allowed);
    }

    /** The loop over the reported tests, on the tests table. */
    method UpdateTests(index: map<string, int>, ts: seq<Row>, allowed: Option<nat>) returns (completed: bool)
      requires allowed.None? || allowed.value >= 2
      modifies this
      ensures suites == old(suites)
      ensures var ws := Writes(index, ts);
        tests == ApplyWrites(old(tests), ws[..WritesDone(|ws|, allowed)])
      ensures var ws := Writes(index, ts);
        completed <==> allowed.None? || allowed.value >= 2 + |ws|
    {
      tests, completed := ApplyTestUpdates(tests, index, ts, allowed);
    }
  }

  /** Each matched test's update, one call each, until a call raises; the
      table afterwards and whether no call raised. */
  method ApplyTestUpdates(table0: map<int, Row>, index: map<string, int>, ts: seq<Row>, allowed: Option<nat>)
      returns (table: map<int, Row>, completed: bool)
    requires allowed.None? || allowed.value >= 2
    ensures var ws := Writes(index, ts);
      table == ApplyWrites(table0, ws[..WritesDone(|ws|, allowed)])
    ensures var ws := Writes(index, ts);
      completed <==> allowed.None? || allowed.value >= 2 + |ws|
  {
    table := table0;
    var calls := 2;
    for i := 0 to |ts|
      invariant table == ApplyWrites(table0, Writes(index, ts[..i]))
      invariant calls == 2 + |Writes(index, ts[..i])|
      invariant allowed.None? || calls <= allowed.value
    {
      WritesStep(index, ts, i);
      var update := WriteOf(index, ts[i]);
      if update != [] {
        if allowed == Some(calls) {
          return table, false;
        }
        var w := update[0];
        assert update == [w];
        ApplyWritesSnoc(table0, Writes(index, ts[..i]), w);
        table := UpdateWhere(table, w.id, w.upd);
        calls := calls + 1;
      } else {
        assert Writes(index, ts[..i + 1]) == Writes(index, ts[..i]);
      }
    }
    assert ts[..|ts|] == ts;
    assert Writes(index, ts)[..|Writes(index, ts)|] == Writes(index, ts);
    completed := true;
  }

  // ---------------------------------------------------------------------------
  // Properties
  // ---------------------------------------------------------------------------

  /** A name is a key of `name_to_id` exactly when some selected row carries it. */
  lemma {:induction false} NameIndexKeys(tests: map<int, Row>, order: seq<int>, suiteId: int, key: string)
    ensures (key in NameIndex(tests, order, suiteId)) <==>
            (exists j :: 0 <= j < |order| && Selected(tests, order[j], suiteId) && NameKey(tests[order[j]]) == key)
  {
    if order != [] {
      var init := order[..|order| - 1];
      NameIndexKeys(tests, init, suiteId, key);
      if exists j :: 0 <= j < |init| && Selected(tests, init[j], suiteId) && NameKey(tests[init[j]]) == key {
        var j :| 0 <= j < |init| && Selected(tests, init[j], suiteId) && NameKey(tests[init[j]]) == key;
        assert order[j] == init[j];
      }
      if exists j :: 0 <= j < |order| && Selected(tests, order[j], suiteId) && NameKey(tests[order[j]]) == key {
        var j :| 0 <= j < |order| && Selected(tests, order[j], suiteId) && NameKey(tests[order[j]]) == key;
        if j < |init| {
          assert init[j] == order[j];
        }
      }
    }
  }

  /** When the query answers every row of the suite, a name is in the index
      iff some row of the suite carries it. */
  lemma NameIndexComplete(tests: map<int, Row>, order: seq<int>, suiteId: int, key: string)
    requires forall id :: Selected(tests, id, suiteId) ==> id in order
    ensures (key in NameIndex(tests, order, suiteId)) <==>
            (exists id :: Selected(tests, id, suiteId) && NameKey(tests[id]) == key)
  {
    NameIndexKeys(tests, order, suiteId, key);
    if id :| Selected(tests, id, suiteId) && NameKey(tests[id]) == key {
      var j :| 0 <= j < |order| && order[j] == id;
      assert Selected(tests, order[j], suiteId) && NameKey(tests[order[j]]) == key;
    }
  }

  /** With duplicate names the later row wins: the id stored for a name is that
      of the last selected row carrying it. */
  lemma {:induction false} LastDuplicateWins(tests: map<int, Row>, order: seq<int>, suiteId: int, j: nat)
    requires j < |order| && Selected(tests, order[j], suiteId)
    requires forall j' :: j < j' < |order| && Selected(tests, order[j'], suiteId) ==>
               NameKey(tests[order[j']]) != NameKey(tests[order[j]])
    ensures NameKey(tests[order[j]]) in NameIndex(tests, order, suiteId)
    ensures NameIndex(tests, order, suiteId)[NameKey(tests[order[j]])] == order[j]
  {
    var init := order[..|order| - 1];
    if j < |order| - 1 {
      assert init[j] == order[j];
      forall j' | j < j' < |init| && Selected(tests, init[j'], suiteId)
        ensures NameKey(tests[init[j']]) != NameKey(tests[init[j]])
      {
        assert init[j'] == order[j'];
      }
      LastDuplicateWins(tests, init, suiteId, j);
    }
  }

  /** Every id in `name_to_id` is that of a selected row, so no update reaches a
      row of another suite. */
  lemma {:induction false} NameIndexSelected(tests: map<int, Row>, order: seq<int>, suiteId: int, key: string)
    requires key in NameIndex(tests, order, suiteId)
    ensures Selected(tests, NameIndex(tests, order, suiteId)[key], suiteId)
  {
    var init := order[..|order| - 1];
    var id := order[|order| - 1];
    if !(Selected(tests, id, suiteId) && NameKey(tests[id]) == key) {
      NameIndexSelected(tests, init, suiteId, key);
    }
  }

  /** A test leads to an update exactly when its name has a row with a truthy
      id, and the update carries that test's columns. */
  lemma WritesFromTests(index: map<string, int>, ts: seq<Row>, w: Write)
    ensures w in Writes(index, ts) <==>
            exists i :: 0 <= i < |ts| && NameKey(ts[i]) in index && index[NameKey(ts[i])] != 0 &&
                        w == Write(index[NameKey(ts[i])], TestUpdate(ts[i]))
  {
    var f := t => WriteOf(index, t);
    ConcatMapMember(ts, f, w);
    if w in Writes(index, ts) {
      var i :| 0 <= i < |ts| && w in f(ts[i]);
      assert NameKey(ts[i]) in index && index[NameKey(ts[i])] != 0 && w == Write(index[NameKey(ts[i])], TestUpdate(ts[i]));
    } else {
      forall i | 0 <= i < |ts| && NameKey(ts[i]) in index && index[NameKey(ts[i])] != 0
        ensures w != Write(index[NameKey(ts[i])], TestUpdate(ts[i]))
      {
        assert w !in f(ts[i]);
      }
    }
  }

  /** Applying updates keeps the set of rows; a row no update names is left
      as it was. */
  lemma {:induction false} UntouchedRows(table: map<int, Row>, ws: seq<Write>, id: int)
    requires id in table
    requires forall j :: 0 <= j < |ws| ==> ws[j].id != id
    ensures ApplyWrites(table, ws)[id] == table[id]
  {
    if ws != [] {
      UntouchedRows(table, ws[..|ws| - 1], id);
    }
  }

  /** Updates made of test columns change only those three columns of any row. */
  lemma {:induction false} OnlyTestColumns(table: map<int, Row>, ws: seq<Write>, id: int, key: string)
    requires id in table && key !in UpdatedColumns
    requires forall j :: 0 <= j < |ws| ==> ws[j].upd.Keys == UpdatedColumns
    ensures id in ApplyWrites(table, ws)
    ensures Get(ApplyWrites(table, ws)[id], key) == Get(table[id], key)
  {
    if ws != [] {
      OnlyTestColumns(table, ws[..|ws| - 1], id, key);
    }
  }

  /** The last update naming a row decides its updated columns. */
  lemma {:induction false} LastWriteDecides(table: map<int, Row>, ws: seq<Write>, j: nat)
    requires j < |ws| && ws[j].id in table
    requires forall j' :: j < j' < |ws| ==> ws[j'].id != ws[j].id
    ensures forall key :: key in ws[j].upd ==> Get(ApplyWrites(table, ws)[ws[j].id], key) == ws[j].upd[key]
  {
    var init := ws[..|ws| - 1];
    if j < |ws| - 1 {
      assert init[j] == ws[j];
      forall j' | j < j' < |init| ensures init[j'].id != init[j].id {
        assert init[j'] == ws[j'];
      }
      LastWriteDecides(table, init, j);
    }
  }
}
