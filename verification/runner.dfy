/** The agent runner of backend/agents/runner.py: one agent's validation, naming
    and stream fold (`_run_single_agent` with its `_execute`), and the ordered
    aggregation of all agents (`run_agents`). The agent runtime, the VM session
    and the clock are parameters: each agent's environment says whether the
    session opens, whether the run times out and what the stream yields. */
module Runner {
  import opened Wrappers
  import opened Text
  import opened AgentUtils

  // ---------------------------------------------------------------------------
  // Spec and naming
  // ---------------------------------------------------------------------------

  /** The fields of a test spec the runner reads; an empty string stands for a
      falsy value. */
  datatype AgentSpec = AgentSpec(
    persona: Option<string>,
    id: Option<string>,
    model: Option<string>,
    messages: Option<seq<Instruction>>,
    maxDurationSec: Option<int>)

  const DefaultPersona := "agent"
  const DefaultModel := "anthropic/claude-3-5-sonnet-20241022"

  function Truthy(v: Option<string>): bool {
    v.Some? && v.value != []
  }

  /** `spec.get("persona") or spec.get("id") or "agent"`. */
  function PersonaOf(spec: AgentSpec): (p: string)
    ensures p != []
    ensures Truthy(spec.persona) ==> p == spec.persona.value
    ensures !Truthy(spec.persona) && Truthy(spec.id) ==> p == spec.id.value
    ensures !Truthy(spec.persona) && !Truthy(spec.id) ==> p == DefaultPersona
  {
    if Truthy(spec.persona) then spec.persona.value
    else if Truthy(spec.id) then spec.id.value
    else DefaultPersona
  }

  /** The spec's model, else `CUA_MODEL`, else the default model. */
  function ModelOf(spec: AgentSpec, envModel: Option<string>): string {
    if Truthy(spec.model) then spec.model.value else envModel.GetOr(DefaultModel)
  }

  /** `f"{base}-{slugify(persona)}-{short_id()}"`. */
  function ContainerName(base: string, persona: string, shortId: string): string {
    (base + "-") + Slugify(persona) + ("-" + shortId)
  }

  /** The container name is the base, the persona's slug and the short id, and
      the slug can be read back from it. */
  lemma ContainerNameParts(base: string, persona: string, shortId: string)
    ensures var name := ContainerName(base, persona, shortId);
      StartsWith(name, base + "-") && EndsWith(name, "-" + shortId) &&
      name[|base| + 1..|name| - |shortId| - 1] == Slugify(persona) &&
      IsSlug(name[|base| + 1..|name| - |shortId| - 1])
  {
    Framed(base + "-", Slugify(persona), "-" + shortId);
  }

  // ---------------------------------------------------------------------------
  // The stream fold of `_execute`
  // ---------------------------------------------------------------------------

  /** One result of `agent.run(messages)`: its `output` items. */
  datatype Chunk = Chunk(output: seq<Item>)

  /** The stream: the results it yields, then possibly the exception it raises
      (its `repr`). */
  datatype Stream = Stream(chunks: seq<Chunk>, raises: Option<string>)

  const Omitted := "[omitted]"

  predicate IsToolCall(item: Item) {
    item.ComputerCall? || item.ComputerCallOutput? || item.FunctionCall? || item.FunctionCallOutput?
  }

  /** The copy kept in `steps`: a screenshot `image_url` of a computer-call
      output is replaced by a marker; everything else is kept as is. */
  function Prune(item: Item): Item {
    if item.ComputerCallOutput? && item.output.OutputDict? && "image_url" in item.output.fields
    then ComputerCallOutput(OutputDict(item.output.fields["image_url" := Omitted]))
    else item
  }

  /** Pruning keeps the item's kind and every field but `image_url`, leaves no
      screenshot behind, and is idempotent. */
  lemma PruneSpec(item: Item)
    ensures IsToolCall(Prune(item)) <==> IsToolCall(item)
    ensures Prune(Prune(item)) == Prune(item)
    ensures !item.ComputerCallOutput? ==> Prune(item) == item
    ensures item.ComputerCallOutput? && item.output.OutputDict? ==>
      var p := Prune(item).output.fields;
      var f := item.output.fields;
      p.Keys == f.Keys &&
      (forall k :: k in f && k != "image_url" ==> p[k] == f[k]) &&
      ("image_url" in p ==> p["image_url"] == Omitted)
  {
  }

  function BlockText(b: Block): seq<TextValue> {
    if HasText(b) then [b.text.value] else []
  }

  function ItemTexts(item: Item): seq<TextValue> {
    if item.Message? then ConcatMap(item.content, BlockText) else []
  }

  function ItemStep(item: Item): seq<Item> {
    if IsToolCall(item) then [Prune(item)] else []
  }

  function ChunkTexts(c: Chunk): seq<TextValue> {
    ConcatMap(c.output, ItemTexts)
  }

  function ChunkSteps(c: Chunk): seq<Item> {
    ConcatMap(c.output, ItemStep)
  }

  datatype RunStatus = Success | Error

  /** What `_execute` hands back, besides the names: status, error, texts, steps. */
  datatype Execution = Execution(status: RunStatus, error: Option<string>, texts: seq<TextValue>, steps: seq<Item>)

  /** The texts of a message's content, in order. */
  method CollectTexts(content: seq<Block>) returns (texts: seq<TextValue>)
    ensures texts == ConcatMap(content, BlockText)
  {
    texts := [];
    for j := 0 to |content|
      invariant texts == ConcatMap(content[..j], BlockText)
    {
      ConcatMapSnoc(content, j, BlockText);
      var block := content[j];
      if block.DictBlock? && block.text.Some? && (block.text.value.Str? ==> block.text.value.s != []) {
        texts := texts + [block.text.value];
      }
    }
    assert content[..|content|] == content;
  }

  /** The loop over one result's `output`: texts of messages, pruned copies of
      tool calls, nothing for any other item. */
  method FoldOutput(output: seq<Item>) returns (texts: seq<TextValue>, steps: seq<Item>)
    ensures texts == ConcatMap(output, ItemTexts)
    ensures steps == ConcatMap(output, ItemStep)
  {
    texts, steps := [], [];
    for j := 0 to |output|
      invariant texts == ConcatMap(output[..j], ItemTexts)
      invariant steps == ConcatMap(output[..j], ItemStep)
    {
      ConcatMapSnoc(output, j, ItemTexts);
      ConcatMapSnoc(output, j, ItemStep);
      var item := output[j];
      if item.Message? {
        var more := CollectTexts(item.content);
        texts := texts + more;
      } else if IsToolCall(item) {
        steps := steps + [Prune(item)];
      }
    }
    assert output[..|output|] == output;
  }

  /** `_execute`'s loop: every yielded result is folded in order; an exception
      from the stream sets the error status and keeps what was collected. */
  method Execute(stream: Stream) returns (e: Execution)
    ensures e.texts == ConcatMap(stream.chunks, ChunkTexts)
    ensures e.steps == ConcatMap(stream.chunks, ChunkSteps)
    ensures e.status == Error <==> stream.raises.Some?
    ensures e.error == stream.raises
  {
    var chunks := stream.chunks;
    var texts, steps := [], [];
    for j := 0 to |chunks|
      invariant texts == ConcatMap(chunks[..j], ChunkTexts)
      invariant steps == ConcatMap(chunks[..j], ChunkSteps)
    {
      ConcatMapSnoc(chunks, j, ChunkTexts);
      ConcatMapSnoc(chunks, j, ChunkSteps);
      var moreTexts, moreSteps := FoldOutput(chunks[j].output);
      texts := texts + moreTexts;
      steps := steps + moreSteps;
    }
    assert chunks[..|chunks|] == chunks;
    var status, error := Success, None;
    if stream.raises.Some? {
      status, error := Error, stream.raises;
    }
    e := Execution(status, error, texts, steps);
  }

  /** Results collected before a failure are exactly what the same results give
      in a run that carries on: more results only extend texts and steps. */
  lemma StreamPrefix(before: seq<Chunk>, after: seq<Chunk>)
    ensures StartsWith(ConcatMap(before + after, ChunkTexts), ConcatMap(before, ChunkTexts))
    ensures StartsWith(ConcatMap(before + after, ChunkSteps), ConcatMap(before, ChunkSteps))
  {
    ConcatMapAppend(before, after, ChunkTexts);
    ConcatMapAppend(before, after, ChunkSteps);
    AppendParts(ConcatMap(before, ChunkTexts), ConcatMap(after, ChunkTexts));
    AppendParts(ConcatMap(before, ChunkSteps), ConcatMap(after, ChunkSteps));
  }

  /** Every kept step is a tool call, and none still carries a screenshot. */
  lemma StepsAreToolCalls(chunks: seq<Chunk>, s: Item)
    requires s in ConcatMap(chunks, ChunkSteps)
    ensures IsToolCall(s)
    ensures s.ComputerCallOutput? && s.output.OutputDict? && "image_url" in s.output.fields ==>
      s.output.fields["image_url"] == Omitted
  {
    ConcatMapMember(chunks, ChunkSteps, s);
    var i :| 0 <= i < |chunks| && s in ChunkSteps(chunks[i]);
    ConcatMapMember(chunks[i].output, ItemStep, s);
    var k :| 0 <= k < |chunks[i].output| && s in ItemStep(chunks[i].output[k]);
    PruneSpec(chunks[i].output[k]);
  }

  /** Every collected text is the truthy text of a block of a message. */
  lemma TextsFromMessages(chunks: seq<Chunk>, t: TextValue)
    requires t in ConcatMap(chunks, ChunkTexts)
    ensures t.Str? ==> t.s != []
    ensures exists i, k, b ::
      (0 <= i < |chunks| && 0 <= k < |chunks[i].output| &&
       chunks[i].output[k].Message? && b in chunks[i].output[k].content &&
       HasText(b) && b.text.value == t)
  {
    ConcatMapMember(chunks, ChunkTexts, t);
    var i :| 0 <= i < |chunks| && t in ChunkTexts(chunks[i]);
    ConcatMapMember(chunks[i].output, ItemTexts, t);
    var k :| 0 <= k < |chunks[i].output| && t in ItemTexts(chunks[i].output[k]);
    var item := chunks[i].output[k];
    ConcatMapMember(item.content, BlockText, t);
    var j :| 0 <= j < |item.content| && t in BlockText(item.content[j]);
    var b := item.content[j];
    assert b in item.content && HasText(b) && b.text.value == t;
  }

  // ---------------------------------------------------------------------------
  // One agent
  // ---------------------------------------------------------------------------

  /** Why `_run_single_agent` raised. */
  datatype Failure = MissingApiKey | MissingMessages(persona: string) | DirFailed | SessionFailed | TimedOut

  /** The dictionary `_execute` returns. */
  datatype AgentRecord = AgentRecord(
    persona: string, personaSlug: string, model: string, containerName: string,
    trajectoryDir: string, status: RunStatus, error: Option<string>, texts: seq<TextValue>, steps: seq<Item>)

  datatype AgentOutcome = Raised(failure: Failure) | Finished(record: AgentRecord)

  /** What the outside world does to one agent's run: whether its trajectory
      directory can be made, whether the VM session opens, whether the run
      outlasts `max_duration_sec`, and what the agent streams. */
  datatype AgentEnv = AgentEnv(dirOk: bool, sessionOk: bool, overTime: bool, stream: Stream)

  /** `run_dir / persona_slug`. */
  function AgentDir(runDir: string, slug: string): string {
    runDir + "/" + slug
  }

  /** `wait_for` only applies when a positive duration is given. */
  predicate TimesOut(spec: AgentSpec, env: AgentEnv) {
    spec.maxDurationSec.Some? && spec.maxDurationSec.value > 0 && env.overTime
  }

  /** `_run_single_agent`: refuses a missing API key, then a spec without
      messages, before any directory or session is made; then makes the
      agent's trajectory directory under `runDir`, opens the session and runs
      the stream fold. */
  method RunSingleAgent(spec: AgentSpec, runDir: string, apiKey: Option<string>, envModel: Option<string>,
                        baseName: string, shortId: string, env: AgentEnv) returns (outcome: AgentOutcome)
    ensures !Truthy(apiKey) ==> outcome == Raised(MissingApiKey)
    ensures Truthy(apiKey) && (spec.messages.None? || spec.messages.value == []) ==>
      outcome == Raised(MissingMessages(PersonaOf(spec)))
    ensures Truthy(apiKey) && spec.messages.Some? && spec.messages.value != [] && !env.dirOk ==>
      outcome == Raised(DirFailed)
    ensures Truthy(apiKey) && spec.messages.Some? && spec.messages.value != [] && env.dirOk && !env.sessionOk ==>
      outcome == Raised(SessionFailed)
    ensures Truthy(apiKey) && spec.messages.Some? && spec.messages.value != [] && env.dirOk && env.sessionOk
            && TimesOut(spec, env) ==>
      outcome == Raised(TimedOut)
    ensures outcome.Finished? <==>
      Truthy(apiKey) && spec.messages.Some? && spec.messages.value != [] && env.dirOk && env.sessionOk &&
      !TimesOut(spec, env)
    ensures outcome.Finished? ==>
      var rec := outcome.record;
      rec.persona == PersonaOf(spec) && rec.personaSlug == Slugify(PersonaOf(spec)) &&
      rec.model == ModelOf(spec, envModel) &&
      rec.containerName == ContainerName(baseName, PersonaOf(spec), shortId) &&
      rec.trajectoryDir == AgentDir(runDir, Slugify(PersonaOf(spec))) &&
      rec.texts == ConcatMap(env.stream.chunks, ChunkTexts) &&
      rec.steps == ConcatMap(env.stream.chunks, ChunkSteps) &&
      (rec.status == Error <==> env.stream.raises.Some?) && rec.error == env.stream.raises
  {
    var persona := PersonaOf(spec);
    var slug := Slugify(persona);
    var model := ModelOf(spec, envModel);
    if !Truthy(apiKey) {
      return Raised(MissingApiKey);
    }
    if spec.messages.None? || spec.messages.value == [] {
      return Raised(MissingMessages(persona));
    }
    var agentDir := AgentDir(runDir, slug);
    if !env.dirOk {
      return Raised(DirFailed);
    }
    var container := ContainerName(baseName, persona, shortId);
    if !env.sessionOk {
      return Raised(SessionFailed);
    }
    if TimesOut(spec, env) {
      return Raised(TimedOut);
    }
    var e := Execute(env.stream);
    outcome := Finished(AgentRecord(persona, slug, model, container, agentDir, e.status, e.error, e.texts, e.steps));
  }

  // ---------------------------------------------------------------------------
  // All agents
  // ---------------------------------------------------------------------------

  /** One entry of the summary's `agents` list. */
  datatype AgentEntry = Ran(record: AgentRecord) | ErrorEntry(persona: string, failure: Failure)

  /** The entry for one spec and its gathered outcome. */
  function EntryOf(spec: AgentSpec, outcome: AgentOutcome): (e: AgentEntry)
    ensures e.ErrorEntry? <==> outcome.Raised?
    ensures e.ErrorEntry? ==> e.persona == PersonaOf(spec) && e.failure == outcome.failure
    ensures e.Ran? ==> e.record == outcome.record
  {
    match outcome
    case Raised(f) => ErrorEntry(PersonaOf(spec), f)
    case Finished(rec) => Ran(rec)
  }

  /** The summary `run_agents` returns; `startedAt` and `finishedAt` are the
      clock readings taken before and after the agents run. */
  datatype Summary = Summary(runId: string, startedAt: string, finishedAt: string, artifactsRoot: string,
                             numAgents: nat, agents: seq<AgentEntry>)

  /** `base_dir / "artifacts" / f"run-{run_id}"`. */
  function ArtifactsDir(baseDir: string, runId: string): string {
    baseDir + "/artifacts/run-" + runId
  }

  /** The summary entry of an agent: an error entry, under its persona and
      with the reason its run raised, exactly when that run raised; otherwise
      the record `_execute` built from its stream. */
  predicate EntryMatches(spec: AgentSpec, env: AgentEnv, runDir: string, apiKey: Option<string>,
                         envModel: Option<string>, baseName: string, shortId: string, e: AgentEntry) {
    var persona := PersonaOf(spec);
    var hasMessages := spec.messages.Some? && spec.messages.value != [];
    (!Truthy(apiKey) ==> e == ErrorEntry(persona, MissingApiKey)) &&
    (Truthy(apiKey) && !hasMessages ==> e == ErrorEntry(persona, MissingMessages(persona))) &&
    (Truthy(apiKey) && hasMessages && !env.dirOk ==> e == ErrorEntry(persona, DirFailed)) &&
    (Truthy(apiKey) && hasMessages && env.dirOk && !env.sessionOk ==> e == ErrorEntry(persona, SessionFailed)) &&
    (Truthy(apiKey) && hasMessages && env.dirOk && env.sessionOk && TimesOut(spec, env) ==>
      e == ErrorEntry(persona, TimedOut)) &&
    (Truthy(apiKey) && hasMessages && env.dirOk && env.sessionOk && !TimesOut(spec, env) ==>
      e.Ran? &&
      e.record.persona == persona && e.record.personaSlug == Slugify(persona) &&
      e.record.model == ModelOf(spec, envModel) &&
      e.record.containerName == ContainerName(baseName, persona, shortId) &&
      e.record.trajectoryDir == AgentDir(runDir, Slugify(persona)) &&
      (e.record.status == Error <==> env.stream.raises.Some?) && e.record.error == env.stream.raises &&
      e.record.texts == ConcatMap(env.stream.chunks, ChunkTexts) &&
      e.record.steps == ConcatMap(env.stream.chunks, ChunkSteps))
  }

  /** `run_agents`: runs every spec in the run's artifacts directory (`gather`
      keeps spec order), turns a raised agent into an error entry, and returns
      the summary whether or not it could be written to disk (`written` is the
      file's new content). */
  method RunAgents(specs: seq<AgentSpec>, envs: seq<AgentEnv>, apiKey: Option<string>,
                   envModel: Option<string>, baseName: string, baseDir: string, runId: string,
                   startedAt: string, finishedAt: string, shortIds: seq<string>, writeOk: bool)
      returns (summary: Summary, written: Option<Summary>)
    requires |envs| == |specs| && |shortIds| == |specs|
    ensures summary.runId == runId && summary.numAgents == |specs|
    ensures summary.startedAt == startedAt && summary.finishedAt == finishedAt
    ensures summary.artifactsRoot == ArtifactsDir(baseDir, runId)
    ensures |summary.agents| == |specs|
    ensures forall i :: 0 <= i < |specs| ==>
      EntryMatches(specs[i], envs[i], ArtifactsDir(baseDir, runId), apiKey, envModel, baseName, shortIds[i], summary.agents[i])
    ensures written == (if writeOk then Some(summary) else None)
  {
    var runDir := ArtifactsDir(baseDir, runId);
    var agents: seq<AgentEntry> := [];
    for i := 0 to |specs|
      invariant |agents| == i
      invariant forall j :: 0 <= j < i ==>
        EntryMatches(specs[j], envs[j], runDir, apiKey, envModel, baseName, shortIds[j], agents[j])
    {
      var outcome := RunSingleAgent(specs[i], runDir, apiKey, envModel, baseName, shortIds[i], envs[i]);
      var entry := EntryOf(specs[i], outcome);
      assert EntryMatches(specs[i], envs[i], runDir, apiKey, envModel, baseName, shortIds[i], entry);
      agents := agents + [entry];
    }
    summary := Summary(runId, startedAt, finishedAt, runDir, |specs|, agents);
    written := if writeOk then Some(summary) else None;
  }
}
