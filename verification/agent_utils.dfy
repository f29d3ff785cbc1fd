/** The helpers of backend/agents/utils.py: name slugs, recording directories,
    test-list normalisation and the extraction of `STEP:` narration lines from
    one streamed agent item. */
module AgentUtils {
  import opened Wrappers
  import opened Text

  // ---------------------------------------------------------------------------
  // slugify
  // ---------------------------------------------------------------------------

  /** The characters a slug may contain: `a-z`, `0-9`, `-` and `_`. */
  predicate IsSlugChar(c: char) {
    'a' <= c <= 'z' || '0' <= c <= '9' || c == '-' || c == '_'
  }

  predicate IsSlug(s: string) {
    s != [] && forall i :: 0 <= i < |s| ==> IsSlugChar(s[i])
  }

  /** The comprehension `[c for c in value if c in allowed]`. */
  function KeepSlugChars(s: string): (r: string)
    ensures forall i :: 0 <= i < |r| ==> IsSlugChar(r[i])
  {
    if s == [] then [] else (if IsSlugChar(s[0]) then [s[0]] else []) + KeepSlugChars(s[1..])
  }

  /** Trim, lower-case, spaces to hyphens, drop every other character; an empty
      result falls back to "agent". */
  function Slugify(value: string): (r: string)
    ensures IsSlug(r)
  {
    var kept := KeepSlugChars(ReplaceChar(Lower(Strip(value)), ' ', '-'));
    if kept == [] then "agent" else kept
  }

  /** The filter distributes over concatenation. */
  lemma {:induction false} KeepSlugCharsAppend(a: string, b: string)
    ensures KeepSlugChars(a + b) == KeepSlugChars(a) + KeepSlugChars(b)
  {
    if a != [] {
      var head := if IsSlugChar(a[0]) then [a[0]] else [];
      assert (a + b)[0] == a[0] && (a + b)[1..] == a[1..] + b;
      KeepSlugCharsAppend(a[1..], b);
      calc {
        KeepSlugChars(a + b);
        head + KeepSlugChars(a[1..] + b);
        head + (KeepSlugChars(a[1..]) + KeepSlugChars(b));
        (head + KeepSlugChars(a[1..])) + KeepSlugChars(b);
        KeepSlugChars(a) + KeepSlugChars(b);
      }
    } else {
      assert a + b == b;
    }
  }

  /** One character is kept exactly when it is allowed. */
  lemma KeepSlugCharsOne(c: char)
    ensures KeepSlugChars([c]) == if IsSlugChar(c) then [c] else []
  {
    assert [c][1..] == [];
  }

  /** A character survives the filter iff it occurs in the input and is allowed. */
  lemma {:induction false} KeepSlugCharsMembers(s: string, c: char)
    ensures c in KeepSlugChars(s) <==> c in s && IsSlugChar(c)
  {
    if s != [] {
      KeepSlugCharsMembers(s[1..], c);
      assert s == [s[0]] + s[1..];
    }
  }

  /** "agent" is returned exactly when no allowed character is left, and
      otherwise the slug is the filtered input. */
  lemma SlugifyFallback(value: string, n: string)
    requires n == ReplaceChar(Lower(Strip(value)), ' ', '-')
    ensures (forall i :: 0 <= i < |n| ==> !IsSlugChar(n[i])) ==> Slugify(value) == "agent"
    ensures (exists i :: 0 <= i < |n| && IsSlugChar(n[i])) ==> Slugify(value) == KeepSlugChars(n)
  {
    if i :| 0 <= i < |n| && IsSlugChar(n[i]) {
      KeepSlugCharsMembers(n, n[i]);
    } else if KeepSlugChars(n) != [] {
      var c := KeepSlugChars(n)[0];
      KeepSlugCharsMembers(n, c);
    }
  }

  lemma {:induction false} KeepSlugCharsFixed(s: string)
    requires forall i :: 0 <= i < |s| ==> IsSlugChar(s[i])
    ensures KeepSlugChars(s) == s
  {
    if s != [] {
      KeepSlugCharsFixed(s[1..]);
      assert s == [s[0]] + s[1..];
    }
  }

  lemma SlugCaseFixed(s: string)
    requires forall i :: 0 <= i < |s| ==> IsSlugChar(s[i])
    ensures Lower(s) == s && ReplaceChar(s, ' ', '-') == s
  {
    forall i | 0 <= i < |s| ensures Lower(s)[i] == s[i] && ReplaceChar(s, ' ', '-')[i] == s[i] {
      assert IsSlugChar(s[i]);
    }
  }

  lemma SlugStripFixed(s: string)
    requires IsSlug(s)
    ensures Strip(s) == s
  {
    assert IsSlugChar(s[0]) && IsSlugChar(s[|s| - 1]);
    StripFixed(s);
  }

  /** A slug is left as it is. */
  lemma SlugifyOfSlug(s: string)
    requires IsSlug(s)
    ensures Slugify(s) == s
  {
    SlugStripFixed(s);
    SlugCaseFixed(s);
    KeepSlugCharsFixed(s);
  }

  /** Slugifying twice is slugifying once. */
  lemma SlugifyIdempotent(value: string)
    ensures Slugify(Slugify(value)) == Slugify(value)
  {
    SlugifyOfSlug(Slugify(value));
  }

  // ---------------------------------------------------------------------------
  // make_remote_recording_dir
  // ---------------------------------------------------------------------------

  const ReplayRoot := "/tmp/replays/"

  /** Where the recorder writes the replay of one test of one suite. */
  function MakeRemoteRecordingDir(suiteId: string, testName: string): string {
    ReplayRoot + suiteId + "/" + Slugify(testName)
  }

  /** The directory lies under `/tmp/replays/<suite_id>/`, and what follows that
      prefix is the slug of the test name, which holds no `/`: the slug is the
      last path segment. */
  lemma RecordingDirShape(suiteId: string, testName: string)
    ensures var prefix := ReplayRoot + suiteId + "/";
      var path := MakeRemoteRecordingDir(suiteId, testName);
      StartsWith(path, prefix) && path[|prefix|..] == Slugify(testName)
      && '/' !in path[|prefix|..]
  {
    AppendParts(ReplayRoot + suiteId + "/", Slugify(testName));
    SlugHasNoSlash(Slugify(testName));
  }

  lemma SlugHasNoSlash(s: string)
    requires IsSlug(s)
    ensures '/' !in s
  {
    forall i | 0 <= i < |s| ensures s[i] != '/' { assert IsSlugChar(s[i]); }
  }

  /** Within one suite, two tests share a recording directory exactly when their
      names have the same slug. */
  lemma RecordingDirInjective(suiteId: string, a: string, b: string)
    ensures MakeRemoteRecordingDir(suiteId, a) == MakeRemoteRecordingDir(suiteId, b)
            <==> Slugify(a) == Slugify(b)
  {
    RecordingDirShape(suiteId, a);
    RecordingDirShape(suiteId, b);
  }

  // ---------------------------------------------------------------------------
  // normalize_tests
  // ---------------------------------------------------------------------------

  /** One chat message of a test's instructions; its content is opaque here. */
  datatype Instruction = Instruction(role: string, content: string)

  /** One entry of the `tests` list of a suite spec; `None` is a missing key. */
  datatype TestInput = TestInput(name: Option<string>, instructions: Option<seq<Instruction>>)

  /** A suite spec as `normalize_tests` reads it. `tests` is `None` when the key is
      missing or its value is not a list. */
  datatype SuiteInput = SuiteInput(
    tests: Option<seq<TestInput>>,
    instructions: Option<seq<Instruction>>,
    suiteName: Option<string>)

  datatype NormalTest = NormalTest(name: string, instructions: seq<Instruction>)

  /** Python's `value or default` for an optional string. */
  function OrString(v: Option<string>, default: string): string {
    if v.Some? && v.value != [] then v.value else default
  }

  /** Python's `value or []` for an optional instruction list. */
  function OrEmpty(v: Option<seq<Instruction>>): seq<Instruction> {
    if v.Some? then v.value else []
  }

  /** The name given to the test at 0-based position `idx` when it has none. */
  function DefaultTestName(idx: nat): string {
    "test-" + Decimal(idx + 1)
  }

  /** Default names of different positions differ. */
  lemma DefaultNamesDistinct(i: nat, j: nat)
    requires i != j
    ensures DefaultTestName(i) != DefaultTestName(j)
  {
    if DefaultTestName(i) == DefaultTestName(j) {
      assert DefaultTestName(i)[5..] == Decimal(i + 1);
      assert DefaultTestName(j)[5..] == Decimal(j + 1);
      DecimalInjective(i + 1, j + 1);
    }
  }

  /** A non-empty `tests` list gives one test per entry, in order, with default
      names and instructions; otherwise the suite itself is the single test. */
  method NormalizeTests(spec: SuiteInput) returns (normalized: seq<NormalTest>)
    ensures spec.tests.Some? && spec.tests.value != [] ==>
      |normalized| == |spec.tests.value|
      && forall i :: 0 <= i < |normalized| ==>
           normalized[i].name == OrString(spec.tests.value[i].name, DefaultTestName(i))
           && normalized[i].instructions == OrEmpty(spec.tests.value[i].instructions)
    ensures !(spec.tests.Some? && spec.tests.value != []) ==>
      normalized == [NormalTest(OrString(spec.suiteName, "Standard"), OrEmpty(spec.instructions))]
    ensures normalized != [] && forall t :: t in normalized ==> t.name != []
  {
    if spec.tests.Some? && spec.tests.value != [] {
      var tests := spec.tests.value;
      normalized := [];
      for idx := 0 to |tests|
        invariant |normalized| == idx
        invariant forall i :: 0 <= i < idx ==>
          normalized[i].name == OrString(tests[i].name, DefaultTestName(i))
          && normalized[i].instructions == OrEmpty(tests[i].instructions)
      {
        var t := tests[idx];
        var name := OrString(t.name, DefaultTestName(idx));
        var instructions := OrEmpty(t.instructions);
        normalized := normalized + [NormalTest(name, instructions)];
      }
      return;
    }
    var instructions := OrEmpty(spec.instructions);
    var suiteName := OrString(spec.suiteName, "Standard");
    normalized := [NormalTest(suiteName, instructions)];
  }

  // ---------------------------------------------------------------------------
  // Streamed agent items
  // ---------------------------------------------------------------------------

  /** The value under a content block's "text" key. `Unprintable` is a value whose
      `str()` raises. */
  datatype TextValue = Str(s: string) | Unprintable

  /** One element of a message's `content` list. */
  datatype Block = NonDict | DictBlock(text: Option<TextValue>)

  /** The `output` of a `computer_call_output` item: a dictionary of string
      fields, or any other value. */
  datatype Output = OutputDict(fields: map<string, string>) | OutputOther

  /** The `action` of a `computer_call` item: a dictionary of string fields
      (a missing or falsy action reads as the empty one), or a truthy value
      that is not a dictionary and so has no `get`. */
  datatype Action = ActionDict(fields: map<string, string>) | ActionOther

  /** One item of an agent result's `output` list, by its "type" tag. A message
      whose content is missing, empty or not a list has `content == []`. */
  datatype Item =
    | Message(content: seq<Block>)
    | ComputerCall(action: Action)
    | ComputerCallOutput(output: Output)
    | FunctionCall(name: Option<string>)
    | FunctionCallOutput
    | OtherItem

  /** `isinstance(block, dict) and block.get("text")`. */
  predicate HasText(b: Block) {
    b.DictBlock? && b.text.Some? && (b.text.value.Str? ==> b.text.value.s != [])
  }

  /** A text block whose conversion to a string raises. */
  predicate Faulty(b: Block) {
    b.DictBlock? && b.text.Some? && b.text.value.Unprintable?
  }

  /** Index of the first block that raises, or `|blocks|` when none does. */
  function FirstFault(blocks: seq<Block>): (k: nat)
    ensures k <= |blocks| && (k < |blocks| ==> Faulty(blocks[k]))
    ensures forall i :: 0 <= i < k ==> !Faulty(blocks[i])
  {
    if blocks == [] then 0 else if Faulty(blocks[0]) then 0 else 1 + FirstFault(blocks[1..])
  }

  const StepPrefix := "STEP:"

  /** The step one line narrates: the trimmed text after the first colon of a
      line whose trimmed, upper-cased form starts with `STEP:`, unless empty. */
  function LineStep(line: string): seq<string> {
    var candidate := Strip(line);
    if StartsWith(Upper(candidate), StepPrefix) then
      var stepText := Strip(AfterFirst(candidate, ':'));
      if stepText != [] then [stepText] else []
    else []
  }

  function TextSteps(text: string): seq<string> {
    ConcatMap(SplitLines(text), LineStep)
  }

  function BlockSteps(b: Block): seq<string> {
    if HasText(b) && b.text.value.Str? then TextSteps(b.text.value.s) else []
  }

  /** Steps of the blocks in order, up to the first block that raises. */
  function BlocksSteps(blocks: seq<Block>): seq<string> {
    ConcatMap(blocks[..FirstFault(blocks)], BlockSteps)
  }

  /** The steps `extract_major_steps` returns for an item. */
  function ItemSteps(item: Item): seq<string> {
    if item.Message? then BlocksSteps(item.content) else []
  }

  /** A step as it can come out of the extractor: non-empty, trimmed, one line. */
  predicate WellFormedStep(s: string) {
    s != [] && !IsSpace(s[0]) && !IsSpace(s[|s| - 1]) && NoLineBreak(s)
  }

  lemma StrippedWellFormed(text: string)
    ensures Strip(text) != [] && NoLineBreak(Strip(text)) ==> WellFormedStep(Strip(text))
  {
  }

  /** For a candidate whose upper-cased form starts with `STEP:`, the first colon
      is the one of the prefix. */
  lemma AfterStepPrefix(candidate: string)
    requires StartsWith(Upper(candidate), StepPrefix)
    ensures AfterFirst(candidate, ':') == candidate[5..]
  {
    var u := Upper(candidate);
    assert u[..5] == StepPrefix;
    assert u[4] == ':';
    assert candidate[4] == ':' by { assert UpperChar(candidate[4]) == ':'; }
    forall i | 0 <= i < 4 ensures candidate[i] != ':' {
      assert UpperChar(candidate[i]) == StepPrefix[i];
    }
    assert IndexOf(candidate, ':') == 4;
  }

  /** A line yields a step exactly when its trimmed, upper-cased form starts with
      `STEP:` and something other than whitespace follows the prefix; the step is
      that remainder, trimmed. */
  lemma LineStepSpec(line: string)
    ensures var candidate := Strip(line);
      LineStep(line) != [] <==>
        StartsWith(Upper(candidate), StepPrefix) && Strip(candidate[5..]) != []
    ensures LineStep(line) != [] ==>
      |Strip(line)| >= 5 && LineStep(line) == [Strip(Strip(line)[5..])]
  {
    var candidate := Strip(line);
    if StartsWith(Upper(candidate), StepPrefix) {
      AfterStepPrefix(candidate);
    }
  }

  lemma LineStepShape(line: string)
    requires NoLineBreak(line)
    ensures forall s :: s in LineStep(line) ==> WellFormedStep(s)
  {
    if LineStep(line) != [] {
      var rest := Strip(line)[5..];
      assert LineStep(line) == [Strip(rest)] by { LineStepSpec(line); }
      StripSliceNoBreak(line, 5);
      StrippedWellFormed(rest);
    }
  }

  /** Every step of a text is well formed. */
  lemma TextStepsShape(text: string)
    ensures forall s :: s in TextSteps(text) ==> WellFormedStep(s)
  {
    var lines := SplitLines(text);
    forall s | s in TextSteps(text) ensures WellFormedStep(s) {
      ConcatMapMember(lines, LineStep, s);
      var i :| 0 <= i < |lines| && s in LineStep(lines[i]);
      LineStepShape(lines[i]);
    }
  }

  lemma BlocksStepsShape(blocks: seq<Block>)
    ensures forall s :: s in BlocksSteps(blocks) ==> WellFormedStep(s)
  {
    var run := blocks[..FirstFault(blocks)];
    forall s | s in BlocksSteps(blocks) ensures WellFormedStep(s) {
      ConcatMapMember(run, BlockSteps, s);
      var i :| 0 <= i < |run| && s in BlockSteps(run[i]);
      var b := run[i];
      if HasText(b) && b.text.value.Str? {
        TextStepsShape(b.text.value.s);
      }
    }
  }

  /** Every step `extract_major_steps` returns is non-empty, trimmed and one line. */
  lemma ItemStepsShape(item: Item)
    ensures forall s :: s in ItemSteps(item) ==> WellFormedStep(s)
  {
    if item.Message? {
      BlocksStepsShape(item.content);
    }
  }

  lemma {:induction false} FirstFaultAppend(a: seq<Block>, b: seq<Block>)
    requires FirstFault(a) == |a|
    ensures FirstFault(a + b) == |a| + FirstFault(b)
  {
    if a == [] {
      assert a + b == b;
    } else {
      assert (a + b)[0] == a[0] && (a + b)[1..] == a[1..] + b;
      FirstFaultAppend(a[1..], b);
    }
  }

  /** Once a block raises, later blocks do not move the first raising one. */
  lemma {:induction false} FirstFaultStop(a: seq<Block>, b: seq<Block>)
    requires FirstFault(a) < |a|
    ensures FirstFault(a + b) == FirstFault(a)
  {
    if !Faulty(a[0]) {
      assert (a + b)[1..] == a[1..] + b;
      FirstFaultStop(a[1..], b);
    }
  }

  /** The blocks before the first raising one raise nowhere. */
  lemma FirstFaultPrefix(blocks: seq<Block>)
    ensures FirstFault(blocks[..FirstFault(blocks)]) == FirstFault(blocks)
  {
    var k := FirstFault(blocks);
    var run := blocks[..k];
    assert forall i :: 0 <= i < k ==> run[i] == blocks[i];
  }

  /** Any per-block map, taken up to the first raising block, distributes
      over two runs whose first does not raise. */
  lemma ConcatUpToFaultAppend(a: seq<Block>, b: seq<Block>, f: Block -> seq<string>)
    requires FirstFault(a) == |a|
    ensures ConcatMap((a + b)[..FirstFault(a + b)], f) == ConcatMap(a[..FirstFault(a)], f) + ConcatMap(b[..FirstFault(b)], f)
  {
    FirstFaultAppend(a, b);
    ConcatMapTakeAppend(a, b, FirstFault(a), FirstFault(b), f);
  }

  /** Block order is preserved: the steps of two runs of blocks are the steps of
      the first run followed by those of the second, unless the first raises. */
  lemma BlocksStepsAppend(a: seq<Block>, b: seq<Block>)
    requires FirstFault(a) == |a|
    ensures BlocksSteps(a + b) == BlocksSteps(a) + BlocksSteps(b)
  {
    ConcatUpToFaultAppend(a, b, BlockSteps);
  }

  /** A block that raises ends the extraction: the result is what the blocks
      before it gave, and blocks after it add nothing. */
  lemma BlocksStepsStopAtFault(blocks: seq<Block>, rest: seq<Block>)
    requires FirstFault(blocks) < |blocks|
    ensures BlocksSteps(blocks) == BlocksSteps(blocks[..FirstFault(blocks)])
    ensures BlocksSteps(blocks + rest) == BlocksSteps(blocks)
  {
    var k := FirstFault(blocks);
    FirstFaultPrefix(blocks);
    TakeTake(blocks, k);
    FirstFaultStop(blocks, rest);
    TakePrefix(blocks, rest, k);
  }

  /** The steps of a run of lines, one line after the other. */
  method CollectLineSteps(lines: seq<string>) returns (steps: seq<string>)
    ensures steps == ConcatMap(lines, LineStep)
  {
    steps := [];
    for j := 0 to |lines|
      invariant steps == ConcatMap(lines[..j], LineStep)
    {
      ConcatMapSnoc(lines, j, LineStep);
      var candidate := Strip(lines[j]);
      if StartsWith(Upper(candidate), StepPrefix) {
        var stepText := Strip(AfterFirst(candidate, ':'));
        if stepText != [] {
          steps := steps + [stepText];
        }
      }
    }
    assert lines[..|lines|] == lines;
  }

  /** The steps of one content block; `raised` when converting its text raises. */
  method CollectBlockSteps(block: Block) returns (steps: seq<string>, raised: bool)
    ensures raised == Faulty(block)
    ensures steps == BlockSteps(block)
  {
    steps := [];
    raised := false;
    if HasText(block) {
      match block.text.value
      case Unprintable =>
        raised := true;
      case Str(text) =>
        steps := CollectLineSteps(SplitLines(text));
    }
  }

  /** `extract_major_steps`: the steps of a `message` item, nothing for any other
      item, and on an internal exception the steps gathered before it. */
  method ExtractMajorSteps(item: Item) returns (steps: seq<string>)
    ensures steps == ItemSteps(item)
    ensures !item.Message? ==> steps == []
  {
    steps := [];
    if !item.Message? {
      return;
    }
    var content := item.content;
    var i := 0;
    while i < |content|
      invariant 0 <= i <= |content|
      invariant i <= FirstFault(content)
      invariant steps == ConcatMap(content[..i], BlockSteps)
    {
      var more, raised := CollectBlockSteps(content[i]);
      if raised {
        assert FirstFault(content) == i;
        return;
      }
      ConcatMapSnoc(content, i, BlockSteps);
      steps := steps + more;
      i := i + 1;
    }
    assert content[..|content|] == content;
  }

  // ---------------------------------------------------------------------------
  // process_item
  // ---------------------------------------------------------------------------

  /** The caller-owned list `test_agent_steps` that `process_item` appends to. */
  class StepLog {
    var entries: seq<string>

    constructor ()
      ensures entries == []
    {
      entries := [];
    }
  }

  /** Logging a `computer_call` calls `action.get`, which raises outside any
      `try` when the action is not a dictionary. */
  predicate RaisesOnAction(item: Item) {
    item.ComputerCall? && item.action.ActionOther?
  }

  /** `process_item`: appends to the caller's list exactly the steps of the item,
      in order, keeps the earlier entries, and hands back the same list (`None`
      when it raises instead). Its scan is the one of `extract_major_steps`: it
      appends each step as it finds it, and a block that raises stops the
      appending but keeps what was appended before it, which leaves the list as
      appending the extracted steps at once does. Tool-call items are only
      logged, and only a non-dictionary `action` makes that raise. */
  method ProcessItem(item: Item, suiteId: string, log: StepLog) returns (r: Option<StepLog>)
    modifies log
    ensures r.None? <==> RaisesOnAction(item)
    ensures r.Some? ==> r.value == log
    ensures log.entries == old(log.entries) + ItemSteps(item)
  {
    if RaisesOnAction(item) {
      return None;
    }
    var steps := ExtractMajorSteps(item);
    log.entries := log.entries + steps;
    r := Some(log);
  }
}
