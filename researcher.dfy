/**
 * The research worker: a model step that may request tool calls, a tools step that runs them in order,
 * and a condensation step that summarises the transcript; wired as Agent -> (Tools | Condensation),
 * Tools -> Agent, Condensation -> END.
 */
module Researcher {
  import opened Common
  import opened Messages
  import opened Channels
  import opened StateSchemas
  import opened ToolRegistry

  /** Running a looked-up tool for one call: `tool.invoke(args)` (or `ainvoke`); it may raise. */
  type ToolRunner = (ToolCall, Tool) -> Outcome<string>

  /** The worker binds and indexes the registry's answer to a request for the search and think tools: only the search tool. */
  function WorkerToolsByName(): (r: map<string, Tool>)
    ensures r == map["tavily_search" := TavilySearchTool]
  {
    WorkerToolRequest();
    assert [TavilySearchTool][..0] == [];
    GetToolsByName(Some(GetTools(Some(["tavily_search", "think_tool"]))))
  }

  /** The channels of the compiled worker graph: those of `ResearcherState` and of `ResearcherOutputState`. */
  function WorkerChannels(): (r: Schema)
    ensures "researcher_messages" in r && r["researcher_messages"] == AddMessages
    ensures "raw_notes" in r && r["raw_notes"] == ListAdd
    ensures "compressed_research" in r && r["compressed_research"] == LastValue
  {
    GraphChannels(ResearcherStateSchema, ResearcherOutputSchema)
  }

  /** The research agent step: the model sees the instruction, then the whole transcript; its reply is the update. */
  function AgentNode(state: Dict, model: ChatModel, instruction: string): (u: Dict)
    requires HasMsgs(state, "researcher_messages")
    ensures u.Keys == {"researcher_messages"}
    ensures u["researcher_messages"] == Msgs([model([SystemMessage(instruction)] + GetMsgs(state, "researcher_messages"))])
  {
    map["researcher_messages" := Msgs([model([SystemMessage(instruction)] + state["researcher_messages"].msgs)])]
  }

  /** Applying the agent step appends exactly one model message to the transcript. */
  lemma AgentAppendsOne(state: Dict, model: ChatModel, instruction: string)
    requires HasMsgs(state, "researcher_messages")
    ensures var after := Apply(WorkerChannels(), state, AgentNode(state, model, instruction));
      HasMsgs(after, "researcher_messages") &&
      GetMsgs(after, "researcher_messages") == GetMsgs(state, "researcher_messages")
        + [model([SystemMessage(instruction)] + GetMsgs(state, "researcher_messages"))]
  {
    var reply := model([SystemMessage(instruction)] + GetMsgs(state, "researcher_messages"));
    ApplyAppendsMessages(WorkerChannels(), state, AgentNode(state, model, instruction), "researcher_messages", [reply]);
  }

  datatype Route = Tools | CondenseResearch

  /** `route`: go to the tools step exactly when the latest message asks for tools. */
  function RouteOf(state: Dict): (r: Route)
    requires |GetMsgs(state, "researcher_messages")| > 0
    ensures r == Tools <==> |Last(GetMsgs(state, "researcher_messages")).ToolCalls()| > 0
  {
    var msgs := GetMsgs(state, "researcher_messages");
    if |msgs[|msgs| - 1].ToolCalls()| > 0 then Tools else CondenseResearch
  }

  function Last(msgs: seq<Message>): Message
    requires |msgs| > 0
  {
    msgs[|msgs| - 1]
  }

  /**
   * Running the calls one after the other, in request order: each name is looked up in `byName`
   * (a missing name raises `KeyError`), then the tool runs; the first failure aborts the whole step.
   */
  function ExecuteAll(calls: seq<ToolCall>, byName: map<string, Tool>, run: ToolRunner): (r: Outcome<seq<string>>)
    ensures r.Ok? ==> |r.value| == |calls|
    ensures r.Ok? ==> forall c :: c in calls ==> c.name in byName
    decreases |calls|
  {
    if |calls| == 0 then Ok([])
    else
      match ExecuteAll(calls[..|calls| - 1], byName, run)
      case Raised => Raised
      case Ok(observations) =>
        var c := calls[|calls| - 1];
        if c.name !in byName then Raised
        else match run(c, byName[c.name])
          case Raised => Raised
          case Ok(o) => Ok(observations + [o])
  }

  /** Every call of a sequence is registered and runs without raising. */
  ghost predicate AllSucceed(calls: seq<ToolCall>, byName: map<string, Tool>, run: ToolRunner) {
    forall i :: 0 <= i < |calls| ==> calls[i].name in byName && run(calls[i], byName[calls[i].name]).Ok?
  }

  /**
   * Execution succeeds iff every call names a known tool and that tool does not raise; it then yields one
   * observation per call, the i-th being the i-th call's result. An unknown name is an error, never skipped.
   */
  lemma {:induction false} ExecuteAllSpec(calls: seq<ToolCall>, byName: map<string, Tool>, run: ToolRunner)
    ensures ExecuteAll(calls, byName, run).Ok? <==> AllSucceed(calls, byName, run)
    ensures ExecuteAll(calls, byName, run).Ok? ==>
      var obs := ExecuteAll(calls, byName, run).value;
      |obs| == |calls| &&
      forall i :: 0 <= i < |calls| ==> obs[i] == run(calls[i], byName[calls[i].name]).value
    decreases |calls|
  {
    if |calls| > 0 {
      var init := calls[..|calls| - 1];
      ExecuteAllSpec(init, byName, run);
      assert forall i :: 0 <= i < |init| ==> init[i] == calls[i];
      if AllSucceed(calls, byName, run) {
        assert AllSucceed(init, byName, run);
      }
    }
  }

  /** Once a prefix of the calls fails, the whole execution fails. */
  lemma {:induction false} ExecutePrefixRaised(calls: seq<ToolCall>, k: nat, byName: map<string, Tool>, run: ToolRunner)
    requires k <= |calls|
    requires ExecuteAll(calls[..k], byName, run).Raised?
    ensures ExecuteAll(calls, byName, run).Raised?
  {
    ExecuteAllSpec(calls[..k], byName, run);
    ExecuteAllSpec(calls, byName, run);
    var i :| 0 <= i < k && !(calls[..k][i].name in byName && run(calls[..k][i], byName[calls[..k][i].name]).Ok?);
    assert calls[..k][i] == calls[i];
  }

  /** What the tools step returns, as a specification: the observations as tool messages, or the exception. */
  function ToolsStep(state: Dict, byName: map<string, Tool>, run: ToolRunner): (r: Outcome<Dict>)
    requires |GetMsgs(state, "researcher_messages")| > 0
    ensures r.Ok? ==> r.value.Keys == {"researcher_messages"} && r.value["researcher_messages"].Msgs?
    ensures r.Ok? ==> |r.value["researcher_messages"].msgs| == |Last(GetMsgs(state, "researcher_messages")).ToolCalls()|
  {
    var calls := Last(GetMsgs(state, "researcher_messages")).ToolCalls();
    match ExecuteAll(calls, byName, run)
    case Raised => Raised
    case Ok(observations) => Ok(map["researcher_messages" := Msgs(ToolMessagesFor(observations, calls))])
  }

  /** The loop both tools steps share: look up each call's tool, run it, stop at the first exception. */
  method ExecuteToolCalls(state: Dict, byName: map<string, Tool>, run: ToolRunner) returns (r: Outcome<Dict>)
    requires |GetMsgs(state, "researcher_messages")| > 0
    ensures r == ToolsStep(state, byName, run)
  {
    var calls := Last(GetMsgs(state, "researcher_messages")).ToolCalls();
    var observations: seq<string> := [];
    for i := 0 to |calls|
      invariant ExecuteAll(calls[..i], byName, run) == Ok(observations)
    {
      var call := calls[i];
      assert calls[..i + 1][..i] == calls[..i];
      if call.name !in byName {
        ExecutePrefixRaised(calls, i + 1, byName, run);
        return Raised;
      }
      var observation := run(call, byName[call.name]);
      if observation.Raised? {
        ExecutePrefixRaised(calls, i + 1, byName, run);
        return Raised;
      }
      observations := observations + [observation.value];
    }
    assert calls[..|calls|] == calls;
    r := Ok(map["researcher_messages" := Msgs(ToolMessagesFor(observations, calls))]);
  }

  /** `ToolsNode.__call__`: the worker's tool calls, looked up in the worker's index and run with `invoke`. */
  method ToolsNode(state: Dict, invoke: (Tool, Args) -> Outcome<string>) returns (r: Outcome<Dict>)
    requires |GetMsgs(state, "researcher_messages")| > 0
    ensures r == ToolsStep(state, WorkerToolsByName(), (c: ToolCall, t: Tool) => invoke(t, c.args))
  {
    r := ExecuteToolCalls(state, WorkerToolsByName(), (c: ToolCall, t: Tool) => invoke(t, c.args));
  }

  /** A successful tools step answers every call exactly once, in request order, with that call's name and id. */
  lemma ToolsStepAnswersEachCall(state: Dict, byName: map<string, Tool>, run: ToolRunner)
    requires |GetMsgs(state, "researcher_messages")| > 0
    ensures var calls := Last(GetMsgs(state, "researcher_messages")).ToolCalls();
      ToolsStep(state, byName, run).Ok? <==> AllSucceed(calls, byName, run)
    ensures var calls := Last(GetMsgs(state, "researcher_messages")).ToolCalls();
      ToolsStep(state, byName, run).Ok? ==>
        var out := ToolsStep(state, byName, run).value;
        out.Keys == {"researcher_messages"} && out["researcher_messages"].Msgs? &&
        var answers := out["researcher_messages"].msgs;
        |answers| == |calls| &&
        forall i :: 0 <= i < |calls| ==>
          answers[i] == ToolMessage(run(calls[i], byName[calls[i].name]).value, calls[i].name, calls[i].id)
  {
    var calls := Last(GetMsgs(state, "researcher_messages")).ToolCalls();
    ExecuteAllSpec(calls, byName, run);
  }

  /** The worker's index knows only `tavily_search`, so a `think_tool` call makes the tools step raise. */
  lemma ThinkToolCallFails(state: Dict, run: ToolRunner, i: nat)
    requires |GetMsgs(state, "researcher_messages")| > 0
    requires i < |Last(GetMsgs(state, "researcher_messages")).ToolCalls()|
    requires Last(GetMsgs(state, "researcher_messages")).ToolCalls()[i].name == "think_tool"
    ensures ToolsStep(state, WorkerToolsByName(), run) == Raised
  {
    var calls := Last(GetMsgs(state, "researcher_messages")).ToolCalls();
    ExecuteAllSpec(calls, WorkerToolsByName(), run);
  }

  /** The text of every AI and tool message of the transcript, in order; all other messages are skipped. */
  function NoteContents(msgs: seq<Message>): (r: seq<string>)
    ensures |r| <= |msgs|
    ensures forall s :: s in r ==> exists m :: m in msgs && m.IsAiOrTool() && m.content == s
    decreases |msgs|
  {
    if |msgs| == 0 then []
    else (if msgs[0].IsAiOrTool() then [msgs[0].content] else []) + NoteContents(msgs[1..])
  }

  /** Note extraction distributes over concatenation, so it keeps transcript order. */
  lemma {:induction false} NoteContentsAppend(a: seq<Message>, b: seq<Message>)
    ensures NoteContents(a + b) == NoteContents(a) + NoteContents(b)
    decreases |a|
  {
    if |a| > 0 {
      assert (a + b)[0] == a[0];
      assert (a + b)[1..] == a[1..] + b;
      NoteContentsAppend(a[1..], b);
    } else {
      assert a + b == b;
    }
  }

  /** A model or tool message contributes its content; a human or system message contributes nothing. */
  lemma NoteContentsSingle(m: Message)
    ensures NoteContents([m]) == if m.AIMessage? || m.ToolMessage? then [m.content] else []
  {
    assert [m][1..] == [];
  }

  /** The condensation prompt: the instruction, every transcript message unchanged, then one closing request. */
  function CondensationPrompt(msgs: seq<Message>, instruction: string, request: string): (p: seq<Message>)
    ensures |p| == |msgs| + 2
    ensures p[0] == SystemMessage(instruction) && p[|p| - 1] == HumanMessage(request)
    ensures p[1..|msgs| + 1] == msgs
  {
    [SystemMessage(instruction)] + msgs + [HumanMessage(request)]
  }

  /**
   * The condensation update, under the key the caller writes the summary to: the summariser's reply and
   * the raw notes as ONE entry, the newline-join of the model and tool messages' contents.
   */
  function CondensationUpdate(summaryKey: string, state: Dict, summariser: ChatModel, instruction: string, request: string): (u: Dict)
    requires HasMsgs(state, "researcher_messages")
    requires summaryKey != "raw_notes"
    ensures u.Keys == {summaryKey, "raw_notes"}
    ensures u[summaryKey].Str? && u["raw_notes"].Strs? && |u["raw_notes"].items| == 1
  {
    var msgs := state["researcher_messages"].msgs;
    map[summaryKey := Str(summariser(CondensationPrompt(msgs, instruction, request)).content),
        "raw_notes" := Strs([Join("\n", NoteContents(msgs))])]
  }

  /** `ResearchCondensationNode.__call__` writes the summary under `compressed_research`. */
  function Condensation(state: Dict, summariser: ChatModel, instruction: string, request: string): (u: Dict)
    requires HasMsgs(state, "researcher_messages")
    ensures "compressed_research" in u && u["compressed_research"]
      == Str(summariser(CondensationPrompt(GetMsgs(state, "researcher_messages"), instruction, request)).content)
    ensures "raw_notes" in u && u["raw_notes"] == Strs([Join("\n", NoteContents(GetMsgs(state, "researcher_messages")))])
  {
    CondensationUpdate("compressed_research", state, summariser, instruction, request)
  }

  /** The worker's oracles and prompt texts: the tool-calling model, how tools run, and the summariser. */
  datatype WorkerConfig = WorkerConfig(
    model: ChatModel, agentInstruction: string, run: ToolRunner,
    summariser: ChatModel, condensationInstruction: string, condensationRequest: string)

  /** The agent step applied to the state: the transcript gains the model's reply, the raw notes stay. */
  function AgentStep(cfg: WorkerConfig, state: Dict): (next: Dict)
    requires HasMsgs(state, "researcher_messages")
    ensures HasMsgs(next, "researcher_messages") && |GetMsgs(next, "researcher_messages")| > 0
    ensures GetStrs(next, "raw_notes") == GetStrs(state, "raw_notes")
    ensures HoldsStrs(state, "raw_notes") ==> HoldsStrs(next, "raw_notes")
  {
    AgentAppendsOne(state, cfg.model, cfg.agentInstruction);
    Apply(WorkerChannels(), state, AgentNode(state, cfg.model, cfg.agentInstruction))
  }

  /** The tools step applied to the state, or the exception it raised; the raw notes stay. */
  function ToolsApplied(cfg: WorkerConfig, state: Dict): (r: Outcome<Dict>)
    requires |GetMsgs(state, "researcher_messages")| > 0
    ensures r.Ok? ==> HasMsgs(r.value, "researcher_messages") && GetStrs(r.value, "raw_notes") == GetStrs(state, "raw_notes")
    ensures r.Ok? && HoldsStrs(state, "raw_notes") ==> HoldsStrs(r.value, "raw_notes")
  {
    match ToolsStep(state, WorkerToolsByName(), cfg.run)
    case Raised => Raised
    case Ok(update) =>
      ToolsStepAnswersEachCall(state, WorkerToolsByName(), cfg.run);
      ApplyAppendsMessages(WorkerChannels(), state, update, "researcher_messages", update["researcher_messages"].msgs);
      Ok(Apply(WorkerChannels(), state, update))
  }

  /**
   * One run of the compiled worker graph from `state`. `fuel` bounds the number of agent steps and stands for
   * the engine's step limit: running out of it raises, as that limit does. Nothing in the worker counts rounds.
   */
  function RunWorker(cfg: WorkerConfig, state: Dict, fuel: nat): (r: Outcome<Dict>)
    requires HasMsgs(state, "researcher_messages")
    ensures r.Ok? ==> fuel > 0 && "compressed_research" in r.value
    decreases fuel, 0
  {
    if fuel == 0 then Raised else AfterAgent(cfg, AgentStep(cfg, state), fuel - 1)
  }

  /** The conditional edge after the agent step: condense and end, or run the tools and go back to the agent. */
  function AfterAgent(cfg: WorkerConfig, state: Dict, fuel: nat): (r: Outcome<Dict>)
    requires HasMsgs(state, "researcher_messages") && |GetMsgs(state, "researcher_messages")| > 0
    ensures r.Ok? ==> "compressed_research" in r.value
    decreases fuel, 1
  {
    match RouteOf(state)
    case CondenseResearch =>
      Ok(Apply(WorkerChannels(), state,
        Condensation(state, cfg.summariser, cfg.condensationInstruction, cfg.condensationRequest)))
    case Tools =>
      match ToolsApplied(cfg, state)
      case Raised => Raised
      case Ok(next) => RunWorker(cfg, next, fuel)
  }

  /**
   * `final` is what condensation leaves after a model reply without tool calls, starting from the raw notes
   * `notes`: the transcript ends with that reply, the summary channel holds the summariser's reply to the
   * transcript, and the raw notes grew by the single joined entry.
   */
  ghost predicate CondensedFrom(cfg: WorkerConfig, notes: seq<string>, final: Dict) {
    var msgs := GetMsgs(final, "researcher_messages");
    && |msgs| > 0 && |Last(msgs).ToolCalls()| == 0
    && "compressed_research" in final
    && final["compressed_research"] == Str(cfg.summariser(CondensationPrompt(msgs, cfg.condensationInstruction, cfg.condensationRequest)).content)
    && GetStrs(final, "raw_notes") == notes + [Join("\n", NoteContents(msgs))]
  }

  lemma CondensationStep(cfg: WorkerConfig, state: Dict)
    requires HasMsgs(state, "researcher_messages") && HoldsStrs(state, "raw_notes")
    requires |GetMsgs(state, "researcher_messages")| > 0
    requires |Last(GetMsgs(state, "researcher_messages")).ToolCalls()| == 0
    ensures CondensedFrom(cfg, GetStrs(state, "raw_notes"),
      Apply(WorkerChannels(), state, Condensation(state, cfg.summariser, cfg.condensationInstruction, cfg.condensationRequest)))
  {
    var u := Condensation(state, cfg.summariser, cfg.condensationInstruction, cfg.condensationRequest);
    ApplyAppendsStrings(WorkerChannels(), state, u, "raw_notes", u["raw_notes"].items);
    ApplyKeepsUntouched(WorkerChannels(), state, u, "researcher_messages");
  }

  /** A run that returned ended in condensation from the raw notes `notes`; a run that raised says nothing. */
  ghost predicate Finished(cfg: WorkerConfig, notes: seq<string>, r: Outcome<Dict>) {
    r.Ok? ==> CondensedFrom(cfg, notes, r.value)
  }

  /** A finished run went through condensation exactly once, right after a model reply without tool calls. */
  lemma {:induction false} RunWorkerResult(cfg: WorkerConfig, state: Dict, fuel: nat)
    requires HasMsgs(state, "researcher_messages") && HoldsStrs(state, "raw_notes")
    ensures Finished(cfg, GetStrs(state, "raw_notes"), RunWorker(cfg, state, fuel))
    decreases fuel, 0
  {
    if fuel > 0 {
      var next, rest := AgentStep(cfg, state), fuel - 1;
      AfterAgentResult(cfg, next, rest);
      assert RunWorker(cfg, state, fuel) == AfterAgent(cfg, next, rest);
    }
  }

  /** From the routing step on, a finished run likewise ends in one condensation, with the raw notes it started from. */
  lemma {:induction false} AfterAgentResult(cfg: WorkerConfig, state: Dict, fuel: nat)
    requires HasMsgs(state, "researcher_messages") && |GetMsgs(state, "researcher_messages")| > 0
    requires HoldsStrs(state, "raw_notes")
    ensures Finished(cfg, GetStrs(state, "raw_notes"), AfterAgent(cfg, state, fuel))
    decreases fuel, 1
  {
    if RouteOf(state) == CondenseResearch {
      CondensationStep(cfg, state);
      AfterCondensation(cfg, state, fuel);
    } else if ToolsApplied(cfg, state).Ok? {
      var next := ToolsApplied(cfg, state).value;
      RunWorkerResult(cfg, next, fuel);
      AfterTools(cfg, state, fuel);
    }
  }

  /** A reply without tool calls leads to condensation, whose applied update is the run's final state. */
  lemma AfterCondensation(cfg: WorkerConfig, state: Dict, fuel: nat)
    requires HasMsgs(state, "researcher_messages") && |GetMsgs(state, "researcher_messages")| > 0
    requires RouteOf(state) == CondenseResearch
    ensures AfterAgent(cfg, state, fuel) ==
      Ok(Apply(WorkerChannels(), state, Condensation(state, cfg.summariser, cfg.condensationInstruction, cfg.condensationRequest)))
  {
  }

  /** After a tools step that returned, the run goes back to the agent step with the fuel that is left. */
  lemma AfterTools(cfg: WorkerConfig, state: Dict, fuel: nat)
    requires HasMsgs(state, "researcher_messages") && |GetMsgs(state, "researcher_messages")| > 0
    requires RouteOf(state) == Tools && ToolsApplied(cfg, state).Ok?
    ensures AfterAgent(cfg, state, fuel) == RunWorker(cfg, ToolsApplied(cfg, state).value, fuel)
  {
  }

  /** The supervisor's seed for one delegated topic: the topic as the only human message, and as `research_topic`. */
  function WorkerSeed(topic: string): (seed: Dict)
    ensures HasMsgs(seed, "researcher_messages") && GetMsgs(seed, "researcher_messages") == [HumanMessage(topic)]
    ensures "raw_notes" !in seed
  {
    map["researcher_messages" := Msgs([HumanMessage(topic)]), "research_topic" := Str(topic)]
  }

  /** `researcher_workflow.ainvoke(seed)` as compiled: the final state filtered through `outputSchema`. */
  function Workflow(outputSchema: Schema, cfg: WorkerConfig, seed: Dict, fuel: nat): (r: Outcome<Dict>)
    requires HasMsgs(seed, "researcher_messages")
    ensures r.Ok? ==> fuel > 0 && r.value.Keys <= outputSchema.Keys
    ensures r.Ok? && "compressed_research" in outputSchema ==> "compressed_research" in r.value
  {
    match RunWorker(cfg, seed, fuel)
    case Raised => Raised
    case Ok(final) => Ok(GraphOutput(outputSchema, final))
  }

  /** The output schema with its first field spelled as the worker writes it. */
  const CorrectedOutputSchema: Schema := map[
    "compressed_research" := LastValue,
    "raw_notes" := ListAdd,
    "researcher_messages" := AddMessages]

  /** As compiled, no worker output ever carries `compressed_research`: the summary is written but filtered out. */
  lemma {:induction false} AsWrittenOutputDropsSummary(cfg: WorkerConfig, topic: string, fuel: nat)
    ensures Workflow(ResearcherOutputSchema, cfg, WorkerSeed(topic), fuel).Ok? ==>
      "compressed_research" !in Workflow(ResearcherOutputSchema, cfg, WorkerSeed(topic), fuel).value
  {
    match RunWorker(cfg, WorkerSeed(topic), fuel)
    case Raised =>
    case Ok(final) => ResearcherOutputKeys(final);
  }

  /**
   * With the field spelled `compressed_research`, a finished worker hands back the summariser's reply to its
   * final transcript, and its raw notes as exactly one joined entry.
   */
  lemma {:induction false} CorrectedOutputKeepsSummary(cfg: WorkerConfig, topic: string, fuel: nat)
    ensures Workflow(CorrectedOutputSchema, cfg, WorkerSeed(topic), fuel).Ok? ==>
      var out := Workflow(CorrectedOutputSchema, cfg, WorkerSeed(topic), fuel).value;
      var final := RunWorker(cfg, WorkerSeed(topic), fuel).value;
      var msgs := GetMsgs(final, "researcher_messages");
      RunWorker(cfg, WorkerSeed(topic), fuel).Ok? &&
      "compressed_research" in out &&
      out["compressed_research"] == Str(cfg.summariser(CondensationPrompt(msgs, cfg.condensationInstruction, cfg.condensationRequest)).content) &&
      GetStrs(out, "raw_notes") == [Join("\n", NoteContents(msgs))]
  {
    RunWorkerResult(cfg, WorkerSeed(topic), fuel);
  }
}
