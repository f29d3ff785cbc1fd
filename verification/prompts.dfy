/** The instruction text given to a testing agent (backend/agents/prompts.py):
    a header naming the deployment and the suite, the communication rules, one
    numbered entry per test with its description and priority, and a fixed
    block of guidelines and the verdict format. */
module Prompts {
  import opened Wrappers
  import opened Text

  /** The fields of a test the builder reads. */
  datatype PromptTest = PromptTest(name: string, summary: Option<string>)

  const DefaultBaseUrl := "https://www.larris.me/"
  const NoDescription := "No description provided"

  /** `os.getenv("DEPLOYMENT_URL", "https://www.larris.me/")`. */
  function BaseUrl(deploymentUrl: Option<string>): string {
    deploymentUrl.GetOr(DefaultBaseUrl)
  }

  // ---------------------------------------------------------------------------
  // Header
  // ---------------------------------------------------------------------------

  /** The fixed prose of the instructions that no property is about: the
      opening sentence up to the URL, the style rules for steps, the approach
      steps after the first, and the testing guidelines. The properties below
      hold for any prose; `SourceProse` is the text the builder uses. */
  datatype Prose = Prose(intro: string, styleRules: string, approachRest: string, guidelines: string)

  const SourceProse := Prose(
    "\nYou are an autonomous QA testing agent for web applications. Your goal is to thoroughly test the deployment at ",
    "- Use action/gerund form ending with \"-ing\" (e.g., \"Clicking Admissions\", \"Navigating to home\").\n"
    + "- Major steps are human-meaningful actions: navigation, key clicks that change pages, form submissions, and verifications.\n"
    + "- Exclude micro steps (mouse moves, small scrolls, key-by-key typing) unless they are the core action.\n"
    + "- Exclude continuations from the last step (ex. \"Continuing to scroll\").\n"
    + "- Keep each step as simple as possible, under 7 words ideally.\n",
    "\n2. Execute each scenario's intent\n3. Verify the expected destination/state\n"
    + "4. Document ONLY major actions using STEP lines in gerund form\n\nSPECIFIC TEST SCENARIOS:\n",
    "\n\nTESTING GUIDELINES:\n- Be thorough, but keep communication to STEP lines only\n"
    + "- Take screenshots at key moments for your own reasoning, but do not describe them\n"
    + "- YOU ARE ON AN EXTREME TIME CRUNCH, test as EFFICIENTLY as possible, which could mean forming a conclusion PASS/FAIL faster instead of trying over and over again.\n"
    + "- Prioritize actions that meaningfully change app state or page\n\n")

  function Intro(prose: Prose, base: string): string {
    prose.intro + base + ".\n\n"
  }

  function SuiteLine(name: string): string {
    "SUITE: " + name
  }

  function TotalLine(n: nat): string {
    "TOTAL TESTS: " + Decimal(n)
  }

  function SuiteLines(name: string, n: nat): string {
    SuiteLine(name) + ("\n" + TotalLine(n)) + "\n"
  }

  const RulesTitle := "\nCOMMUNICATION RULES (MANDATORY):\n"
  const StepRule := "- Only output concise major steps in the exact format: \"STEP: <short gerund phrase>\".\n"
  const ResultRule := "- After completing each test scenario, output exactly one line: \"RESULT: PASSED\" or \"RESULT: FAILED\".\n"

  function Rules(prose: Prose): string {
    RulesTitle + StepRule + prose.styleRules + ResultRule
  }

  function NavigateLine(base: string): string {
    "1. Navigate to the base URL: " + base
  }

  function Approach(prose: Prose, base: string): string {
    "\nTESTING APPROACH:\n" + NavigateLine(base) + prose.approachRest
  }

  function Header(prose: Prose, base: string, suiteName: string, n: nat): string {
    Intro(prose, base) + SuiteLines(suiteName, n) + Rules(prose) + Approach(prose, base)
  }

  // ---------------------------------------------------------------------------
  // Test entries
  // ---------------------------------------------------------------------------

  /** `test.get('summary', 'No description provided')`. */
  function Description(summary: Option<string>): string {
    summary.GetOr(NoDescription)
  }

  /** `'HIGH'` when "critical" occurs in the lower-cased summary (a missing
      summary reads as empty), `'MEDIUM'` otherwise. */
  function Priority(summary: Option<string>): (p: string)
    ensures p == "HIGH" || p == "MEDIUM"
    ensures p == "HIGH" <==> Contains(Lower(summary.GetOr("")), "critical")
  {
    if Contains(Lower(summary.GetOr("")), "critical") then "HIGH" else "MEDIUM"
  }

  /** The numbered first line of an entry: `"<i>. <name>"`. */
  function TestHeading(i: nat, name: string): string {
    Decimal(i) + ". " + name
  }

  function TestDetails(summary: Option<string>): string {
    "\n   Description: " + Description(summary) + "\n   Priority: " + Priority(summary) + "\n"
  }

  function TestEntry(i: nat, t: PromptTest): string {
    "\n" + TestHeading(i, t.name) + TestDetails(t.summary)
  }

  /** The entries of the first `k` tests, numbered from 1. */
  function Entries(tests: seq<PromptTest>, k: nat): string
    requires k <= |tests|
  {
    if k == 0 then [] else Entries(tests, k - 1) + TestEntry(k, tests[k - 1])
  }

  // ---------------------------------------------------------------------------
  // Footer and the whole text
  // ---------------------------------------------------------------------------

  const VerdictBlock := "FINAL VERDICT FORMAT (MANDATORY):\n- After each scenario, output exactly one line: RESULT: PASSED or RESULT: FAILED\n"

  function Footer(prose: Prose): string {
    prose.guidelines + VerdictBlock
  }

  /** The whole instruction text. */
  function Prompt(prose: Prose, tests: seq<PromptTest>, suiteName: string, base: string): string {
    Header(prose, base, suiteName, |tests|) + Entries(tests, |tests|) + Footer(prose)
  }

  /** The loop of the builder: each test's entry appended in order. */
  method AppendEntries(text: string, tests: seq<PromptTest>) returns (r: string)
    ensures r == text + Entries(tests, |tests|)
  {
    r := text;
    for i := 0 to |tests|
      invariant r == text + Entries(tests, i)
    {
      AppendAssoc(text, Entries(tests, i), TestEntry(i + 1, tests[i]));
      r := r + TestEntry(i + 1, tests[i]);
    }
  }

  /** `build_agent_instructions`: the header, then one entry per test appended in
      order, then the footer. */
  method BuildAgentInstructions(tests: seq<PromptTest>, suiteName: string, deploymentUrl: Option<string>)
      returns (instructions: string)
    ensures instructions == Prompt(SourceProse, tests, suiteName, BaseUrl(deploymentUrl))
  {
    var base := BaseUrl(deploymentUrl);
    instructions := Header(SourceProse, base, suiteName, |tests|);
    instructions := AppendEntries(instructions, tests);
    instructions := instructions + Footer(SourceProse);
  }

  // ---------------------------------------------------------------------------
  // Properties
  // ---------------------------------------------------------------------------

  /** Whatever sits in the header also sits in the whole text. */
  lemma HeaderPart(prose: Prose, tests: seq<PromptTest>, suiteName: string, base: string, part: string)
    requires Contains(Header(prose, base, suiteName, |tests|), part)
    ensures Contains(Prompt(prose, tests, suiteName, base), part)
  {
    ContainsLeft(Header(prose, base, suiteName, |tests|), part, Entries(tests, |tests|));
    ContainsLeft(Header(prose, base, suiteName, |tests|) + Entries(tests, |tests|), part, Footer(prose));
  }

  /** The text names the suite and the number of tests. */
  lemma PromptNamesSuite(prose: Prose, tests: seq<PromptTest>, suiteName: string, base: string)
    ensures Contains(Prompt(prose, tests, suiteName, base), SuiteLine(suiteName))
    ensures Contains(Prompt(prose, tests, suiteName, base), TotalLine(|tests|))
  {
    var n := |tests|;
    var suite, total := SuiteLine(suiteName), TotalLine(n);
    ContainsSelf(suite);
    ContainsLeft(suite, suite, "\n" + total);
    ContainsLeft(suite + ("\n" + total), suite, "\n");
    ContainsSelf(total);
    ContainsRight("\n", total, total);
    ContainsRight(suite, "\n" + total, total);
    ContainsLeft(suite + ("\n" + total), total, "\n");
    var lines := SuiteLines(suiteName, n);
    InHeaderSuiteLines(prose, base, suiteName, n, suite);
    InHeaderSuiteLines(prose, base, suiteName, n, total);
    HeaderPart(prose, tests, suiteName, base, suite);
    HeaderPart(prose, tests, suiteName, base, total);
  }

  lemma InHeaderSuiteLines(prose: Prose, base: string, suiteName: string, n: nat, part: string)
    requires Contains(SuiteLines(suiteName, n), part)
    ensures Contains(Header(prose, base, suiteName, n), part)
  {
    ContainsRight(Intro(prose, base), SuiteLines(suiteName, n), part);
    ContainsLeft(Intro(prose, base) + SuiteLines(suiteName, n), part, Rules(prose));
    ContainsLeft(Intro(prose, base) + SuiteLines(suiteName, n) + Rules(prose), part, Approach(prose, base));
  }

  /** The base URL appears in the opening sentence and in the first approach step. */
  lemma PromptNamesBaseUrl(prose: Prose, tests: seq<PromptTest>, suiteName: string, base: string)
    ensures Contains(Prompt(prose, tests, suiteName, base), prose.intro + base)
    ensures Contains(Prompt(prose, tests, suiteName, base), NavigateLine(base))
  {
    var n := |tests|;
    var opening := prose.intro + base;
    ContainsSelf(opening);
    ContainsLeft(opening, opening, ".\n\n");
    ContainsLeft(Intro(prose, base), opening, SuiteLines(suiteName, n));
    ContainsLeft(Intro(prose, base) + SuiteLines(suiteName, n), opening, Rules(prose));
    ContainsLeft(Intro(prose, base) + SuiteLines(suiteName, n) + Rules(prose), opening, Approach(prose, base));
    HeaderPart(prose, tests, suiteName, base, opening);
    var nav := NavigateLine(base);
    ContainsSelf(nav);
    ContainsRight("\nTESTING APPROACH:\n", nav, nav);
    ContainsLeft("\nTESTING APPROACH:\n" + nav, nav, prose.approachRest);
    ContainsRight(Intro(prose, base) + SuiteLines(suiteName, n) + Rules(prose), Approach(prose, base), nav);
    HeaderPart(prose, tests, suiteName, base, nav);
  }

  /** The text mandates `STEP:` lines and one `RESULT:` line per scenario. */
  lemma PromptMandatesFormat(prose: Prose, tests: seq<PromptTest>, suiteName: string, base: string)
    ensures Contains(Prompt(prose, tests, suiteName, base), StepRule)
    ensures Contains(Prompt(prose, tests, suiteName, base), ResultRule)
  {
    ContainsSelf(StepRule);
    ContainsRight(RulesTitle, StepRule, StepRule);
    ContainsLeft(RulesTitle + StepRule, StepRule, prose.styleRules);
    ContainsLeft(RulesTitle + StepRule + prose.styleRules, StepRule, ResultRule);
    InHeaderRules(prose, tests, suiteName, base, StepRule);
    ContainsSelf(ResultRule);
    ContainsRight(RulesTitle + StepRule + prose.styleRules, ResultRule, ResultRule);
    InHeaderRules(prose, tests, suiteName, base, ResultRule);
  }

  lemma InHeaderRules(prose: Prose, tests: seq<PromptTest>, suiteName: string, base: string, part: string)
    requires Contains(Rules(prose), part)
    ensures Contains(Prompt(prose, tests, suiteName, base), part)
  {
    var n := |tests|;
    ContainsRight(Intro(prose, base) + SuiteLines(suiteName, n), Rules(prose), part);
    ContainsLeft(Intro(prose, base) + SuiteLines(suiteName, n) + Rules(prose), part, Approach(prose, base));
    HeaderPart(prose, tests, suiteName, base, part);
  }

  /** The text always ends with the guidelines and the verdict format, whatever
      the tests. */
  lemma PromptEndsWithFooter(prose: Prose, tests: seq<PromptTest>, suiteName: string, base: string)
    ensures EndsWith(Prompt(prose, tests, suiteName, base), Footer(prose))
    ensures EndsWith(Prompt(prose, tests, suiteName, base), VerdictBlock)
  {
    EndsWithConcat(Header(prose, base, suiteName, |tests|) + Entries(tests, |tests|), Footer(prose));
    EndsWithConcat(prose.guidelines, VerdictBlock);
    EndsWithTrans(Prompt(prose, tests, suiteName, base), Footer(prose), VerdictBlock);
  }

  /** The entries of the first `k` tests hold the entry of each of them. */
  lemma {:induction false} EntriesHold(tests: seq<PromptTest>, k: nat, j: nat)
    requires j < k <= |tests|
    ensures Contains(Entries(tests, k), TestEntry(j + 1, tests[j]))
  {
    var prev := Entries(tests, k - 1);
    var last := TestEntry(k, tests[k - 1]);
    if j == k - 1 {
      ContainsSelf(last);
      ContainsRight(prev, last, last);
    } else {
      EntriesHold(tests, k - 1, j);
      ContainsLeft(prev, TestEntry(j + 1, tests[j]), last);
    }
  }

  /** Test `i` (from 0) appears as entry `i + 1`: its heading `"<i+1>. <name>"`,
      its description (or the default) and its priority. */
  lemma PromptListsTest(prose: Prose, tests: seq<PromptTest>, suiteName: string, base: string, i: nat)
    requires i < |tests|
    ensures Contains(Prompt(prose, tests, suiteName, base), TestEntry(i + 1, tests[i]))
    ensures Contains(TestEntry(i + 1, tests[i]), TestHeading(i + 1, tests[i].name))
  {
    var n := |tests|;
    var entry := TestEntry(i + 1, tests[i]);
    EntriesHold(tests, n, i);
    ContainsRight(Header(prose, base, suiteName, n), Entries(tests, n), entry);
    ContainsLeft(Header(prose, base, suiteName, n) + Entries(tests, n), entry, Footer(prose));
    var heading := TestHeading(i + 1, tests[i].name);
    ContainsSelf(heading);
    ContainsRight("\n", heading, heading);
    ContainsLeft("\n" + heading, heading, TestDetails(tests[i].summary));
  }

  /** A test without a summary is described by the default text and has
      priority MEDIUM. */
  lemma MissingSummary()
    ensures Description(None) == NoDescription
    ensures Priority(None) == "MEDIUM"
  {
    assert !Contains(Lower(""), "critical");
  }

  lemma LowerUpper(s: string)
    ensures Lower(Upper(s)) == Lower(s) && Lower(Lower(s)) == Lower(s)
  {
  }

  /** Priority ignores the case of the summary. */
  lemma PriorityIgnoresCase(s: string)
    ensures Priority(Some(Upper(s))) == Priority(Some(s))
    ensures Priority(Some(Lower(s))) == Priority(Some(s))
  {
    LowerUpper(s);
  }
}
