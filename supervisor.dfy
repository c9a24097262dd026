/**
 * The research supervisor: a decision step that asks the supervisor model what to do next, and a tools
 * step that carries the decision out (reflections, then research delegated to workers) or ends the
 * supervision. The two steps alternate until the tools step goes to the end.
 */
module Supervisor {
  import opened Common
  import opened Messages
  import opened Channels
  import opened StateSchemas
  import opened ToolRegistry
  import opened Researcher

  /** The cap on supervisor decisions. */
  const MaxResearcherIterations: int := 6

  /** The number of parallel workers the supervisor prompt asks for; nothing in the code enforces it. */
  const MaxConcurrentResearchers: int := 3

  /** The observation given for a worker whose output carries no `compressed_research`. */
  const SynthesisError: string := "연구 보고서를 종합(요약)하는 중 오류가 발생했습니다."

  /** The nodes a supervisor `Command` can go to. */
  datatype Goto = SupervisorTools | SupervisorAgent | End

  /** A `Command`: the next node and the state update. */
  datatype Command = Command(goto: Goto, update: Dict)

  /**
   * `SupervisorAgentNode.__call__`: the model answers the instruction followed by the supervisor transcript; the
   * update appends that one reply and sets the counter to one more than before (0 when it was never set).
   */
  function Decide(state: Dict, model: ChatModel, instruction: string): (cmd: Command)
    ensures cmd.goto == SupervisorTools
    ensures cmd.update.Keys == {"supervisor_messages", "research_iterations"}
    ensures cmd.update["supervisor_messages"] == Msgs([model([SystemMessage(instruction)] + GetMsgs(state, "supervisor_messages"))])
    ensures cmd.update["research_iterations"] == Int(GetInt(state, "research_iterations", 0) + 1)
  {
    var reply := model([SystemMessage(instruction)] + GetMsgs(state, "supervisor_messages"));
    Command(SupervisorTools, map[
      "supervisor_messages" := Msgs([reply]),
      "research_iterations" := Int(GetInt(state, "research_iterations", 0) + 1)])
  }

  /**
   * Applied to the supervisor state, a decision grows the transcript by exactly the model's reply and raises
   * the counter by exactly one; no other channel changes.
   */
  lemma DecideAdvances(state: Dict, model: ChatModel, instruction: string)
    requires HoldsMsgs(state, "supervisor_messages")
    ensures var after := Apply(SupervisorStateSchema, state, Decide(state, model, instruction).update);
      var reply := model([SystemMessage(instruction)] + GetMsgs(state, "supervisor_messages"));
      GetMsgs(after, "supervisor_messages") == GetMsgs(state, "supervisor_messages") + [reply] &&
      HoldsMsgs(after, "supervisor_messages") &&
      GetInt(after, "research_iterations", 0) == GetInt(state, "research_iterations", 0) + 1 &&
      forall k :: k in state && k !in {"supervisor_messages", "research_iterations"} ==> k in after && after[k] == state[k]
  {
    var cmd := Decide(state, model, instruction);
    ApplyAppendsMessages(SupervisorStateSchema, state, cmd.update, "supervisor_messages",
      cmd.update["supervisor_messages"].msgs);
  }

  /** Some call of the sequence has the given name. */
  predicate AnyNamed(calls: seq<ToolCall>, name: string)
    decreases |calls|
  {
    |calls| > 0 && (calls[0].name == name || AnyNamed(calls[1..], name))
  }

  lemma {:induction false} AnyNamedSpec(calls: seq<ToolCall>, name: string)
    ensures AnyNamed(calls, name) <==> exists i :: 0 <= i < |calls| && calls[i].name == name
    decreases |calls|
  {
    if |calls| > 0 {
      AnyNamedSpec(calls[1..], name);
      if exists i :: 0 <= i < |calls| && calls[i].name == name {
        var i :| 0 <= i < |calls| && calls[i].name == name;
        if i > 0 {
          assert calls[1..][i - 1].name == name;
        }
      }
    }
  }

  /**
   * The exit test of the tools step: the decision cap is reached, the last decision asked for no tool, or it
   * called `ResearchCompleteSchema`.
   */
  predicate ShouldEnd(iterations: int, calls: seq<ToolCall>)
    ensures !ShouldEnd(iterations, calls) ==> iterations < MaxResearcherIterations && |calls| > 0
    ensures |calls| > 0 && calls[0].name == "ResearchCompleteSchema" ==> ShouldEnd(iterations, calls)
  {
    iterations >= MaxResearcherIterations || calls == [] || AnyNamed(calls, "ResearchCompleteSchema")
  }

  /** The calls with the given name, in request order. */
  function Named(calls: seq<ToolCall>, name: string): (r: seq<ToolCall>)
    ensures |r| <= |calls|
    ensures forall i :: 0 <= i < |r| ==> r[i].name == name
    decreases |calls|
  {
    if |calls| == 0 then []
    else if calls[|calls| - 1].name == name then Named(calls[..|calls| - 1], name) + [calls[|calls| - 1]]
    else Named(calls[..|calls| - 1], name)
  }

  /** Filtering keeps exactly the calls of that name, in order: it distributes over concatenation. */
  lemma {:induction false} NamedAppend(a: seq<ToolCall>, b: seq<ToolCall>, name: string)
    ensures Named(a + b, name) == Named(a, name) + Named(b, name)
    decreases |b|
  {
    if |b| == 0 {
      assert a + b == a;
    } else {
      var b' := b[..|b| - 1];
      assert (a + b)[..|a + b| - 1] == a + b';
      NamedAppend(a, b', name);
    }
  }

  /** A call is kept iff it has the name, so a call of any other name is skipped without error. */
  lemma {:induction false} NamedMembership(calls: seq<ToolCall>, name: string, c: ToolCall)
    ensures c in Named(calls, name) <==> c in calls && c.name == name
    decreases |calls|
  {
    if |calls| > 0 {
      NamedMembership(calls[..|calls| - 1], name, c);
      assert calls == calls[..|calls| - 1] + [calls[|calls| - 1]];
    }
  }

  /** The reflection tool, invoked on each call's arguments in order; the first exception aborts. */
  function InvokeEach(tool: Tool, calls: seq<ToolCall>, invoke: (Tool, Args) -> Outcome<string>): (r: Outcome<seq<string>>)
    ensures r.Ok? ==> |r.value| == |calls|
    decreases |calls|
  {
    if |calls| == 0 then Ok([])
    else
      match InvokeEach(tool, calls[..|calls| - 1], invoke)
      case Raised => Raised
      case Ok(observations) =>
        match invoke(tool, calls[|calls| - 1].args)
        case Raised => Raised
        case Ok(o) => Ok(observations + [o])
  }

  /** Invocation succeeds iff no call raises, and then the i-th observation is the i-th call's result. */
  lemma {:induction false} InvokeEachSpec(tool: Tool, calls: seq<ToolCall>, invoke: (Tool, Args) -> Outcome<string>)
    ensures InvokeEach(tool, calls, invoke).Ok? <==> forall i :: 0 <= i < |calls| ==> invoke(tool, calls[i].args).Ok?
    ensures InvokeEach(tool, calls, invoke).Ok? ==>
      var obs := InvokeEach(tool, calls, invoke).value;
      |obs| == |calls| && forall i :: 0 <= i < |calls| ==> invoke(tool, calls[i].args) == Ok(obs[i])
    decreases |calls|
  {
    if |calls| > 0 {
      var init := calls[..|calls| - 1];
      InvokeEachSpec(tool, init, invoke);
      assert forall i :: 0 <= i < |init| ==> init[i] == calls[i];
    }
  }

  /** The research topic of each call; a call without one raises `KeyError`. */
  function Topics(calls: seq<ToolCall>): (r: Outcome<seq<string>>)
    ensures r.Ok? <==> forall i :: 0 <= i < |calls| ==> "research_topic" in calls[i].args
    ensures r.Ok? ==> |r.value| == |calls| && forall i :: 0 <= i < |calls| ==> r.value[i] == calls[i].args["research_topic"]
    decreases |calls|
  {
    if |calls| == 0 then Ok([])
    else
      var c := calls[|calls| - 1];
      var init := calls[..|calls| - 1];
      assert forall i :: 0 <= i < |init| ==> init[i] == calls[i];
      match Topics(init)
      case Raised => Raised
      case Ok(topics) => if "research_topic" in c.args then Ok(topics + [c.args["research_topic"]]) else Raised
  }

  /**
   * `asyncio.gather` over one worker run per topic, each seeded as the worker graph expects: the results in
   * topic order, or an exception when any run raises.
   */
  function Gather(topics: seq<string>, runWorker: Dict -> Outcome<Dict>): (r: Outcome<seq<Dict>>)
    ensures r.Ok? <==> forall i :: 0 <= i < |topics| ==> runWorker(WorkerSeed(topics[i])).Ok?
    ensures r.Ok? ==> |r.value| == |topics| && forall i :: 0 <= i < |topics| ==> runWorker(WorkerSeed(topics[i])) == Ok(r.value[i])
    decreases |topics|
  {
    if |topics| == 0 then Ok([])
    else
      var init := topics[..|topics| - 1];
      assert forall i :: 0 <= i < |init| ==> init[i] == topics[i];
      match Gather(init, runWorker)
      case Raised => Raised
      case Ok(results) =>
        match runWorker(WorkerSeed(topics[|topics| - 1]))
        case Raised => Raised
        case Ok(result) => Ok(results + [result])
  }

  /** The observation a worker's output yields: its `compressed_research`, or the fixed error text when absent. */
  function ResearchContent(result: Dict): (content: string)
    ensures "compressed_research" !in result ==> content == SynthesisError
    ensures "compressed_research" in result && result["compressed_research"].Str? ==> content == result["compressed_research"].s
  {
    if "compressed_research" in result && result["compressed_research"].Str? then result["compressed_research"].s
    else SynthesisError
  }

  /** The raw-notes entry a worker's output yields: its raw notes joined with newlines. */
  function RawNote(result: Dict): (note: string)
    ensures "raw_notes" !in result ==> note == ""
    ensures |GetStrs(result, "raw_notes")| == 1 ==> note == GetStrs(result, "raw_notes")[0]
  {
    Join("\n", GetStrs(result, "raw_notes"))
  }

  /** The research answer of each worker output, in order. */
  function Answers(results: seq<Dict>): (contents: seq<string>)
    ensures |contents| == |results| && forall j :: 0 <= j < |results| ==> contents[j] == ResearchContent(results[j])
  {
    seq(|results|, j requires 0 <= j < |results| => ResearchContent(results[j]))
  }

  /** The raw-notes entry of each worker output, in order. */
  function RawNotes(results: seq<Dict>): (notes: seq<string>)
    ensures |notes| == |results| && forall j :: 0 <= j < |results| ==> notes[j] == RawNote(results[j])
  {
    seq(|results|, j requires 0 <= j < |results| => RawNote(results[j]))
  }

  /** What a successful execution of the requested tools produces. */
  datatype Execution = Execution(toolMessages: seq<Message>, rawNotes: seq<string>)

  /** The first (and only) tool the registry returns for a request of the reflection tool alone. */
  function ReflectionToolSelected(): (t: Tool)
    ensures t == ReflectionTool
  {
    SupervisorToolRequest();
    GetTools(Some(["reflection_tool"]))[0]
  }

  /**
   * The `try` block of `supervisor_tools_node` as a specification: reflections first, then one worker per
   * research call, gathered in order; any exception on the way makes the whole execution raise.
   */
  function Execute(calls: seq<ToolCall>, invoke: (Tool, Args) -> Outcome<string>,
                   runWorker: Dict -> Outcome<Dict>): (r: Outcome<Execution>)
    ensures r.Ok? ==> |r.value.toolMessages| == |Named(calls, "reflection_tool")| + |Named(calls, "ConductResearchSchema")|
    ensures r.Ok? ==> |r.value.rawNotes| == |Named(calls, "ConductResearchSchema")|
  {
    var reflections := Named(calls, "reflection_tool");
    var research := Named(calls, "ConductResearchSchema");
    match InvokeEach(ReflectionToolSelected(), reflections, invoke)
    case Raised => Raised
    case Ok(reflected) =>
      match Topics(research)
      case Raised => Raised
      case Ok(topics) =>
        match Gather(topics, runWorker)
        case Raised => Raised
        case Ok(results) =>
          Ok(Execution(ToolMessagesFor(reflected, reflections) + ToolMessagesFor(Answers(results), research), RawNotes(results)))
  }

  /** The terminal update: the notes taken from the transcript, and the brief as it stands ('' when unset). */
  function EndCommand(state: Dict, notesOf: seq<Message> -> seq<string>): (cmd: Command)
    ensures cmd.goto == End && cmd.update.Keys == {"notes", "research_brief"}
    ensures cmd.update["notes"] == Strs(notesOf(GetMsgs(state, "supervisor_messages")))
    ensures "research_brief" in state ==> cmd.update["research_brief"] == state["research_brief"]
    ensures "research_brief" !in state ==> cmd.update["research_brief"] == Str("")
  {
    Command(End, map[
      "notes" := Strs(notesOf(GetMsgs(state, "supervisor_messages"))),
      "research_brief" := if "research_brief" in state then state["research_brief"] else Str("")])
  }

  /** `supervisor_tools_node` as a specification: end on the exit test or on an exception, else report back. */
  function ToolsRound(state: Dict, invoke: (Tool, Args) -> Outcome<string>, runWorker: Dict -> Outcome<Dict>,
                      notesOf: seq<Message> -> seq<string>): (cmd: Command)
    requires |GetMsgs(state, "supervisor_messages")| > 0
    ensures ShouldEnd(GetInt(state, "research_iterations", 0), Last(GetMsgs(state, "supervisor_messages")).ToolCalls()) ==> cmd.goto == End
    ensures cmd.goto == End ==> cmd.update.Keys == {"notes", "research_brief"}
    ensures cmd.goto != End ==>
      cmd.goto == SupervisorAgent && cmd.update.Keys == {"supervisor_messages", "raw_notes"} &&
      cmd.update["supervisor_messages"].Msgs?
  {
    var calls := Last(GetMsgs(state, "supervisor_messages")).ToolCalls();
    if ShouldEnd(GetInt(state, "research_iterations", 0), calls) then EndCommand(state, notesOf)
    else
      match Execute(calls, invoke, runWorker)
      case Raised => EndCommand(state, notesOf)
      case Ok(e) => Command(SupervisorAgent, map["supervisor_messages" := Msgs(e.toolMessages), "raw_notes" := Strs(e.rawNotes)])
  }

  /**
   * The reflection loop of `supervisor_tools_node`: invokes the selected tool on each call in order, appending one
   * tool message per call; the first exception aborts the loop.
   */
  method RunReflections(reflections: seq<ToolCall>, invoke: (Tool, Args) -> Outcome<string>) returns (r: Outcome<seq<Message>>)
    ensures r.Ok? <==> InvokeEach(ReflectionToolSelected(), reflections, invoke).Ok?
    ensures r.Ok? ==> r.value == ToolMessagesFor(InvokeEach(ReflectionToolSelected(), reflections, invoke).value, reflections)
  {
    var tool := ReflectionToolSelected();
    var reflected: seq<string> := [];
    var toolMessages: seq<Message> := [];
    for i := 0 to |reflections|
      invariant InvokeEach(tool, reflections[..i], invoke) == Ok(reflected)
      invariant |reflected| == i
      invariant toolMessages == ToolMessagesFor(reflected, reflections[..i])
    {
      assert reflections[..i + 1][..i] == reflections[..i];
      assert reflections[..i + 1] == reflections[..i] + [reflections[i]];
      var observation := invoke(tool, reflections[i].args);
      if observation.Raised? {
        InvokeEachPrefixRaised(tool, reflections, i + 1, invoke);
        return Raised;
      }
      ToolMessagesForSnoc(reflected, reflections[..i], observation.value, reflections[i]);
      reflected := reflected + [observation.value];
      toolMessages := toolMessages + [ToolMessage(observation.value, reflections[i].name, reflections[i].id)];
    }
    assert reflections[..|reflections|] == reflections;
    r := Ok(toolMessages);
  }

  /**
   * `supervisor_tools_node`: checks the exit test, then runs the reflection calls one by one and the research
   * calls through the workers; an exception anywhere in that block ends the supervision.
   */
  method SupervisorToolsNode(state: Dict, invoke: (Tool, Args) -> Outcome<string>, runWorker: Dict -> Outcome<Dict>,
                             notesOf: seq<Message> -> seq<string>) returns (cmd: Command)
    requires |GetMsgs(state, "supervisor_messages")| > 0
    ensures cmd == ToolsRound(state, invoke, runWorker, notesOf)
  {
    var calls := Last(GetMsgs(state, "supervisor_messages")).ToolCalls();
    if ShouldEnd(GetInt(state, "research_iterations", 0), calls) {
      return EndCommand(state, notesOf);
    }
    var research := Named(calls, "ConductResearchSchema");
    var reflected := RunReflections(Named(calls, "reflection_tool"), invoke);
    if reflected.Raised? {
      return EndCommand(state, notesOf);
    }
    var toolMessages := reflected.value;
    var allRawNotes: seq<string> := [];
    match Topics(research)
    case Raised => return EndCommand(state, notesOf);
    case Ok(topics) =>
      match Gather(topics, runWorker)
      case Raised => return EndCommand(state, notesOf);
      case Ok(results) =>
        toolMessages := toolMessages + ToolMessagesFor(Answers(results), research);
        allRawNotes := RawNotes(results);
    cmd := Command(SupervisorAgent, map["supervisor_messages" := Msgs(toolMessages), "raw_notes" := Strs(allRawNotes)]);
  }

  /** Once some prefix of the calls raises, invoking all of them raises too. */
  lemma {:induction false} InvokeEachPrefixRaised(tool: Tool, calls: seq<ToolCall>, n: nat, invoke: (Tool, Args) -> Outcome<string>)
    requires n <= |calls| && InvokeEach(tool, calls[..n], invoke).Raised?
    ensures InvokeEach(tool, calls, invoke).Raised?
    decreases |calls| - n
  {
    if n < |calls| {
      assert calls[..n + 1][..n] == calls[..n];
      InvokeEachPrefixRaised(tool, calls, n + 1, invoke);
    } else {
      assert calls[..n] == calls;
    }
  }

  /** Filtering a sequence whose calls all have the name keeps all of it; one with none of that name, nothing. */
  lemma {:induction false} NamedExtremes(calls: seq<ToolCall>, name: string)
    ensures (forall i :: 0 <= i < |calls| ==> calls[i].name == name) ==> Named(calls, name) == calls
    ensures (forall i :: 0 <= i < |calls| ==> calls[i].name != name) ==> Named(calls, name) == []
    decreases |calls|
  {
    if |calls| > 0 {
      var init := calls[..|calls| - 1];
      assert forall i :: 0 <= i < |init| ==> init[i] == calls[i];
      NamedExtremes(init, name);
      assert init + [calls[|calls| - 1]] == calls;
    }
  }

  /** One research call's worker run: `KeyError` without a topic, else the worker graph on the seed built from it. */
  function ResearchRun(c: ToolCall, runWorker: Dict -> Outcome<Dict>): Outcome<Dict> {
    if "research_topic" in c.args then runWorker(WorkerSeed(c.args["research_topic"])) else Raised
  }

  /** Reading the topics and gathering the workers succeeds iff every call's run does, and keeps the calls' order. */
  lemma GatherResearch(research: seq<ToolCall>, runWorker: Dict -> Outcome<Dict>)
    ensures (Topics(research).Ok? && Gather(Topics(research).value, runWorker).Ok?) <==>
      forall j :: 0 <= j < |research| ==> ResearchRun(research[j], runWorker).Ok?
    ensures Topics(research).Ok? && Gather(Topics(research).value, runWorker).Ok? ==>
      var results := Gather(Topics(research).value, runWorker).value;
      |results| == |research| && forall j :: 0 <= j < |research| ==> ResearchRun(research[j], runWorker) == Ok(results[j])
  {
    if Topics(research).Raised? {
      var j :| 0 <= j < |research| && "research_topic" !in research[j].args;
      assert ResearchRun(research[j], runWorker).Raised?;
    }
  }

  /** Execution succeeds iff every reflection and every research run succeeds: an exception anywhere aborts it. */
  lemma ExecuteSucceeds(calls: seq<ToolCall>, invoke: (Tool, Args) -> Outcome<string>, runWorker: Dict -> Outcome<Dict>)
    ensures Execute(calls, invoke, runWorker).Ok? ==>
      (forall i :: 0 <= i < |Named(calls, "reflection_tool")| ==>
        invoke(ReflectionTool, Named(calls, "reflection_tool")[i].args).Ok?)
    ensures Execute(calls, invoke, runWorker).Ok? ==>
      (forall j :: 0 <= j < |Named(calls, "ConductResearchSchema")| ==>
        ResearchRun(Named(calls, "ConductResearchSchema")[j], runWorker).Ok?)
    ensures ((forall i :: 0 <= i < |Named(calls, "reflection_tool")| ==>
               invoke(ReflectionTool, Named(calls, "reflection_tool")[i].args).Ok?) &&
             (forall j :: 0 <= j < |Named(calls, "ConductResearchSchema")| ==>
               ResearchRun(Named(calls, "ConductResearchSchema")[j], runWorker).Ok?))
      ==> Execute(calls, invoke, runWorker).Ok?
  {
    var reflections := Named(calls, "reflection_tool");
    var research := Named(calls, "ConductResearchSchema");
    var tool := ReflectionToolSelected();
    InvokeEachSpec(tool, reflections, invoke);
    GatherResearch(research, runWorker);
    assert tool == ReflectionTool;
    if InvokeEach(tool, reflections, invoke).Raised? {
    } else if Topics(research).Raised? {
      assert Execute(calls, invoke, runWorker).Raised?;
    } else {
      assert Execute(calls, invoke, runWorker).Ok? <==> Gather(Topics(research).value, runWorker).Ok?;
    }
  }

  /** A successful execution is the reflection answers followed by the research answers, and one raw note per run. */
  lemma ExecuteValue(calls: seq<ToolCall>, invoke: (Tool, Args) -> Outcome<string>, runWorker: Dict -> Outcome<Dict>)
    requires Execute(calls, invoke, runWorker).Ok?
    ensures var reflections := Named(calls, "reflection_tool");
      var research := Named(calls, "ConductResearchSchema");
      InvokeEach(ReflectionTool, reflections, invoke).Ok? && Topics(research).Ok? &&
      Gather(Topics(research).value, runWorker).Ok? &&
      var results := Gather(Topics(research).value, runWorker).value;
      Execute(calls, invoke, runWorker).value == Execution(
        ToolMessagesFor(InvokeEach(ReflectionTool, reflections, invoke).value, reflections) +
        ToolMessagesFor(Answers(results), research),
        RawNotes(results))
  {
  }

  /** The reflection answers: one per reflection call, in order, carrying its result, name and id. */
  lemma ReflectionAnswers(calls: seq<ToolCall>, invoke: (Tool, Args) -> Outcome<string>)
    requires InvokeEach(ReflectionTool, Named(calls, "reflection_tool"), invoke).Ok?
    ensures var reflections := Named(calls, "reflection_tool");
      var first := ToolMessagesFor(InvokeEach(ReflectionTool, reflections, invoke).value, reflections);
      |first| == |reflections| &&
      forall i :: 0 <= i < |reflections| ==>
        invoke(ReflectionTool, reflections[i].args) == Ok(first[i].content) &&
        first[i] == ToolMessage(first[i].content, "reflection_tool", reflections[i].id)
  {
    InvokeEachSpec(ReflectionTool, Named(calls, "reflection_tool"), invoke);
  }

  /** The research answers and raw notes: one of each per research call, in order, from that call's worker run. */
  lemma ResearchAnswers(calls: seq<ToolCall>, runWorker: Dict -> Outcome<Dict>)
    requires Topics(Named(calls, "ConductResearchSchema")).Ok?
    requires Gather(Topics(Named(calls, "ConductResearchSchema")).value, runWorker).Ok?
    ensures var research := Named(calls, "ConductResearchSchema");
      var results := Gather(Topics(research).value, runWorker).value;
      var second := ToolMessagesFor(Answers(results), research);
      |second| == |research| && |RawNotes(results)| == |research| &&
      forall j :: 0 <= j < |research| ==>
        ResearchRun(research[j], runWorker).Ok? &&
        second[j] == ToolMessage(ResearchContent(ResearchRun(research[j], runWorker).value), "ConductResearchSchema", research[j].id) &&
        RawNotes(results)[j] == RawNote(ResearchRun(research[j], runWorker).value)
  {
    GatherResearch(Named(calls, "ConductResearchSchema"), runWorker);
  }

  /**
   * A successful execution answers each reflection call, then each research call, in request order and with the
   * call's name and id; calls of any other name get no answer. A reflection answer is the reflection tool's
   * result; a research answer is its worker's `compressed_research` or the fixed error text; and there is one
   * raw-notes entry per research call, its worker's raw notes joined with newlines.
   */
  lemma ExecuteAnswers(calls: seq<ToolCall>, invoke: (Tool, Args) -> Outcome<string>, runWorker: Dict -> Outcome<Dict>)
    requires Execute(calls, invoke, runWorker).Ok?
    ensures var e := Execute(calls, invoke, runWorker).value;
      |e.toolMessages| == |Named(calls, "reflection_tool")| + |Named(calls, "ConductResearchSchema")| &&
      |e.rawNotes| == |Named(calls, "ConductResearchSchema")|
    ensures var reflections := Named(calls, "reflection_tool");
      var e := Execute(calls, invoke, runWorker).value;
      forall i :: 0 <= i < |reflections| ==>
        invoke(ReflectionTool, reflections[i].args) == Ok(e.toolMessages[i].content) &&
        e.toolMessages[i] == ToolMessage(e.toolMessages[i].content, "reflection_tool", reflections[i].id)
    ensures var reflections := Named(calls, "reflection_tool");
      var research := Named(calls, "ConductResearchSchema");
      var e := Execute(calls, invoke, runWorker).value;
      var later := e.toolMessages[|reflections|..];
      |later| == |research| && |e.rawNotes| == |research| &&
      forall j :: 0 <= j < |research| ==>
        ResearchRun(research[j], runWorker).Ok? &&
        later[j] == ToolMessage(ResearchContent(ResearchRun(research[j], runWorker).value), "ConductResearchSchema", research[j].id) &&
        e.rawNotes[j] == RawNote(ResearchRun(research[j], runWorker).value)
  {
    ExecuteValue(calls, invoke, runWorker);
    ReflectionAnswers(calls, invoke);
    ResearchAnswers(calls, runWorker);
    var reflections := Named(calls, "reflection_tool");
    var research := Named(calls, "ConductResearchSchema");
    var results := Gather(Topics(research).value, runWorker).value;
    var first := ToolMessagesFor(InvokeEach(ReflectionTool, reflections, invoke).value, reflections);
    var second := ToolMessagesFor(Answers(results), research);
    var e := Execute(calls, invoke, runWorker).value;
    assert e.toolMessages == first + second && e.rawNotes == RawNotes(results);
    assert e.toolMessages[|first|..] == second;
  }

  /** A round that goes back to the decision step passed the exit test and appends its execution's messages and notes. */
  lemma RoundShape(state: Dict, invoke: (Tool, Args) -> Outcome<string>, runWorker: Dict -> Outcome<Dict>,
                   notesOf: seq<Message> -> seq<string>)
    requires |GetMsgs(state, "supervisor_messages")| > 0
    ensures var calls := Last(GetMsgs(state, "supervisor_messages")).ToolCalls();
      var cmd := ToolsRound(state, invoke, runWorker, notesOf);
      cmd.goto != End ==>
        GetInt(state, "research_iterations", 0) < MaxResearcherIterations &&
        Execute(calls, invoke, runWorker).Ok? &&
        cmd.goto == SupervisorAgent && cmd.update.Keys == {"supervisor_messages", "raw_notes"} &&
        cmd.update["supervisor_messages"] == Msgs(Execute(calls, invoke, runWorker).value.toolMessages) &&
        cmd.update["raw_notes"] == Strs(Execute(calls, invoke, runWorker).value.rawNotes)
  {
  }

  /**
   * The tools step goes to the end exactly when the decision cap is reached, no tool was requested, the research
   * was declared complete, or executing the requests raised; the terminal update is then only the notes and the
   * brief. Otherwise it goes back to the decision step and appends tool messages and raw notes, leaving the notes alone.
   */
  lemma RoundEnds(state: Dict, invoke: (Tool, Args) -> Outcome<string>, runWorker: Dict -> Outcome<Dict>,
                  notesOf: seq<Message> -> seq<string>)
    requires |GetMsgs(state, "supervisor_messages")| > 0
    ensures var calls := Last(GetMsgs(state, "supervisor_messages")).ToolCalls();
      var cmd := ToolsRound(state, invoke, runWorker, notesOf);
      (cmd.goto == End <==>
        GetInt(state, "research_iterations", 0) >= MaxResearcherIterations || |calls| == 0 ||
        (exists i :: 0 <= i < |calls| && calls[i].name == "ResearchCompleteSchema") ||
        Execute(calls, invoke, runWorker).Raised?) &&
      (cmd.goto == End ==> cmd == EndCommand(state, notesOf)) &&
      (cmd.goto != End ==>
        cmd.goto == SupervisorAgent && cmd.update.Keys == {"supervisor_messages", "raw_notes"} &&
        cmd.update["supervisor_messages"] == Msgs(Execute(calls, invoke, runWorker).value.toolMessages) &&
        cmd.update["raw_notes"] == Strs(Execute(calls, invoke, runWorker).value.rawNotes))
  {
    AnyNamedSpec(Last(GetMsgs(state, "supervisor_messages")).ToolCalls(), "ResearchCompleteSchema");
    RoundShape(state, invoke, runWorker, notesOf);
  }

  /**
   * Applied to the supervisor state, a terminal round leaves the transcript and the raw notes as they were; a
   * continuing round appends its answers and raw notes and leaves the notes alone.
   */
  lemma RoundChannels(state: Dict, invoke: (Tool, Args) -> Outcome<string>, runWorker: Dict -> Outcome<Dict>,
                      notesOf: seq<Message> -> seq<string>)
    requires |GetMsgs(state, "supervisor_messages")| > 0 && HoldsStrs(state, "raw_notes")
    ensures var cmd := ToolsRound(state, invoke, runWorker, notesOf);
      var after := Apply(SupervisorStateSchema, state, cmd.update);
      (cmd.goto == End ==>
        GetMsgs(after, "supervisor_messages") == GetMsgs(state, "supervisor_messages") &&
        GetStrs(after, "raw_notes") == GetStrs(state, "raw_notes")) &&
      (cmd.goto != End ==>
        GetMsgs(after, "supervisor_messages") == GetMsgs(state, "supervisor_messages") + cmd.update["supervisor_messages"].msgs &&
        GetStrs(after, "raw_notes") == GetStrs(state, "raw_notes") + cmd.update["raw_notes"].items &&
        GetStrs(after, "notes") == GetStrs(state, "notes"))
  {
    var cmd := ToolsRound(state, invoke, runWorker, notesOf);
    RoundShape(state, invoke, runWorker, notesOf);
    if cmd.goto == End {
      ApplyKeepsUntouched(SupervisorStateSchema, state, cmd.update, "supervisor_messages");
      ApplyKeepsUntouched(SupervisorStateSchema, state, cmd.update, "raw_notes");
    } else {
      ApplyAppendsMessages(SupervisorStateSchema, state, cmd.update, "supervisor_messages", cmd.update["supervisor_messages"].msgs);
      ApplyAppendsStrings(SupervisorStateSchema, state, cmd.update, "raw_notes", cmd.update["raw_notes"].items);
      ApplyKeepsUntouched(SupervisorStateSchema, state, cmd.update, "notes");
    }
  }

  /** When the exit test holds no tool runs: the outcome is the terminal update whatever the tools and workers would do. */
  lemma TerminalRunsNothing(state: Dict, invoke: (Tool, Args) -> Outcome<string>, invoke': (Tool, Args) -> Outcome<string>,
                            runWorker: Dict -> Outcome<Dict>, runWorker': Dict -> Outcome<Dict>, notesOf: seq<Message> -> seq<string>)
    requires |GetMsgs(state, "supervisor_messages")| > 0
    requires ShouldEnd(GetInt(state, "research_iterations", 0), Last(GetMsgs(state, "supervisor_messages")).ToolCalls())
    ensures ToolsRound(state, invoke, runWorker, notesOf) == ToolsRound(state, invoke', runWorker', notesOf) == EndCommand(state, notesOf)
  {
  }

  /**
   * The number of parallel workers is not capped: a decision that delegates more topics than the prompt allows,
   * every worker finishing, yields one research answer and one raw-notes entry per topic.
   */
  lemma ResearchNotCapped(state: Dict, invoke: (Tool, Args) -> Outcome<string>, runWorker: Dict -> Outcome<Dict>,
                          notesOf: seq<Message> -> seq<string>)
    requires |GetMsgs(state, "supervisor_messages")| > 0
    requires GetInt(state, "research_iterations", 0) < MaxResearcherIterations
    requires |Last(GetMsgs(state, "supervisor_messages")).ToolCalls()| > MaxConcurrentResearchers
    requires var calls := Last(GetMsgs(state, "supervisor_messages")).ToolCalls();
      forall i :: 0 <= i < |calls| ==> calls[i].name == "ConductResearchSchema" && ResearchRun(calls[i], runWorker).Ok?
    ensures var calls := Last(GetMsgs(state, "supervisor_messages")).ToolCalls();
      var cmd := ToolsRound(state, invoke, runWorker, notesOf);
      cmd.goto == SupervisorAgent &&
      |cmd.update["supervisor_messages"].msgs| == |calls| && |cmd.update["raw_notes"].items| == |calls|
  {
    var calls := Last(GetMsgs(state, "supervisor_messages")).ToolCalls();
    assert !ShouldEnd(GetInt(state, "research_iterations", 0), calls) by {
      AnyNamedSpec(calls, "ResearchCompleteSchema");
    }
    assert Named(calls, "ConductResearchSchema") == calls && Named(calls, "reflection_tool") == [] by {
      NamedExtremes(calls, "ConductResearchSchema");
      NamedExtremes(calls, "reflection_tool");
    }
    assert Execute(calls, invoke, runWorker).Ok? by {
      ExecuteSucceeds(calls, invoke, runWorker);
    }
    var e := Execute(calls, invoke, runWorker).value;
    assert |e.toolMessages| == |calls| && |e.rawNotes| == |calls| by {
      ExecuteAnswers(calls, invoke, runWorker);
    }
    ContinuingRoundUpdate(state, invoke, runWorker, notesOf);
  }

  /** A round that does not end hands back the execution's answers and raw notes, and goes back to the decision step. */
  lemma ContinuingRoundUpdate(state: Dict, invoke: (Tool, Args) -> Outcome<string>, runWorker: Dict -> Outcome<Dict>,
                              notesOf: seq<Message> -> seq<string>)
    requires |GetMsgs(state, "supervisor_messages")| > 0
    requires var calls := Last(GetMsgs(state, "supervisor_messages")).ToolCalls();
      !ShouldEnd(GetInt(state, "research_iterations", 0), calls) && Execute(calls, invoke, runWorker).Ok?
    ensures var calls := Last(GetMsgs(state, "supervisor_messages")).ToolCalls();
      var cmd := ToolsRound(state, invoke, runWorker, notesOf);
      var e := Execute(calls, invoke, runWorker).value;
      cmd.goto == SupervisorAgent &&
      cmd.update["supervisor_messages"] == Msgs(e.toolMessages) && cmd.update["raw_notes"] == Strs(e.rawNotes)
  {
  }

  /** A completed supervision: the final state and how many decisions the supervisor model was asked for. */
  datatype Supervision = Supervision(final: Dict, decisions: nat)

  /** The rest of the decision budget, which every continuing round uses up by one. */
  function Budget(state: Dict): nat {
    if GetInt(state, "research_iterations", 0) < MaxResearcherIterations
    then MaxResearcherIterations - GetInt(state, "research_iterations", 0) else 0
  }

  /** A round that goes back to the decision step leaves a transcript to append to and one less decision in the budget. */
  lemma ContinuingRound(state: Dict, model: ChatModel, instruction: string, invoke: (Tool, Args) -> Outcome<string>,
                        runWorker: Dict -> Outcome<Dict>, notesOf: seq<Message> -> seq<string>)
    requires HoldsMsgs(state, "supervisor_messages")
    ensures var decided := Apply(SupervisorStateSchema, state, Decide(state, model, instruction).update);
      |GetMsgs(decided, "supervisor_messages")| > 0 &&
      var cmd := ToolsRound(decided, invoke, runWorker, notesOf);
      cmd.goto != End ==>
        var next := Apply(SupervisorStateSchema, decided, cmd.update);
        HoldsMsgs(next, "supervisor_messages") && Budget(next) < Budget(state) &&
        GetInt(next, "research_iterations", 0) == GetInt(state, "research_iterations", 0) + 1
  {
    DecideAdvances(state, model, instruction);
    var decided := Apply(SupervisorStateSchema, state, Decide(state, model, instruction).update);
    var cmd := ToolsRound(decided, invoke, runWorker, notesOf);
    RoundShape(decided, invoke, runWorker, notesOf);
    if cmd.goto != End {
      ReportBack(decided, cmd.update);
    }
  }

  /** Applying a report-back update keeps the transcript a message list and leaves the counter alone. */
  lemma ReportBack(state: Dict, update: Dict)
    requires HoldsMsgs(state, "supervisor_messages")
    requires update.Keys == {"supervisor_messages", "raw_notes"} && update["supervisor_messages"].Msgs?
    ensures HoldsMsgs(Apply(SupervisorStateSchema, state, update), "supervisor_messages")
    ensures GetInt(Apply(SupervisorStateSchema, state, update), "research_iterations", 0) == GetInt(state, "research_iterations", 0)
  {
    ApplyAppendsMessages(SupervisorStateSchema, state, update, "supervisor_messages", update["supervisor_messages"].msgs);
    ApplyKeepsUntouched(SupervisorStateSchema, state, update, "research_iterations");
  }

  /**
   * The compiled supervisor graph: decide, apply, run the tools step, apply; stop when the tools step goes to the
   * end. `instruction` is the formatted supervisor prompt.
   */
  function Supervise(state: Dict, model: ChatModel, instruction: string, invoke: (Tool, Args) -> Outcome<string>,
                     runWorker: Dict -> Outcome<Dict>, notesOf: seq<Message> -> seq<string>): (r: Supervision)
    requires HoldsMsgs(state, "supervisor_messages")
    ensures r.decisions >= 1
    ensures "notes" in r.final && "research_brief" in r.final
    decreases Budget(state)
  {
    ContinuingRound(state, model, instruction, invoke, runWorker, notesOf);
    var decided := Apply(SupervisorStateSchema, state, Decide(state, model, instruction).update);
    var cmd := ToolsRound(decided, invoke, runWorker, notesOf);
    var next := Apply(SupervisorStateSchema, decided, cmd.update);
    if cmd.goto == End then Supervision(next, 1)
    else
      var rest := Supervise(next, model, instruction, invoke, runWorker, notesOf);
      Supervision(rest.final, rest.decisions + 1)
  }

  /**
   * Whatever the models, tools and workers do, a supervision starting with counter `k` asks for at least one and at
   * most `6 - k` decisions (one when the cap is already reached).
   */
  lemma {:induction false} DecisionBound(state: Dict, model: ChatModel, instruction: string, invoke: (Tool, Args) -> Outcome<string>,
                                         runWorker: Dict -> Outcome<Dict>, notesOf: seq<Message> -> seq<string>)
    requires HoldsMsgs(state, "supervisor_messages")
    ensures var k := GetInt(state, "research_iterations", 0);
      var n := Supervise(state, model, instruction, invoke, runWorker, notesOf).decisions;
      1 <= n && n <= (if k < MaxResearcherIterations then MaxResearcherIterations - k else 1)
    decreases Budget(state)
  {
    ContinuingRound(state, model, instruction, invoke, runWorker, notesOf);
    var decided := Apply(SupervisorStateSchema, state, Decide(state, model, instruction).update);
    var cmd := ToolsRound(decided, invoke, runWorker, notesOf);
    if cmd.goto != End {
      DecisionBound(Apply(SupervisorStateSchema, decided, cmd.update), model, instruction, invoke, runWorker, notesOf);
    }
  }

  /** From a fresh counter the supervisor model is asked for at most six decisions. */
  lemma AtMostSixDecisions(state: Dict, model: ChatModel, instruction: string, invoke: (Tool, Args) -> Outcome<string>,
                           runWorker: Dict -> Outcome<Dict>, notesOf: seq<Message> -> seq<string>)
    requires HoldsMsgs(state, "supervisor_messages") && "research_iterations" !in state
    ensures Supervise(state, model, instruction, invoke, runWorker, notesOf).decisions <= MaxResearcherIterations
  {
    DecisionBound(state, model, instruction, invoke, runWorker, notesOf);
  }

  /** A worker graph as the supervisor calls it: compiled with the given output schema, run on a seed. */
  function WorkerGraph(outputSchema: Schema, cfg: WorkerConfig, fuel: nat): Dict -> Outcome<Dict> {
    (seed: Dict) => if HasMsgs(seed, "researcher_messages") then Workflow(outputSchema, cfg, seed, fuel) else Raised
  }

  /** One research call against the worker graph as compiled: a finished run yields the fixed error text. */
  lemma AsWrittenRunIsFallback(c: ToolCall, cfg: WorkerConfig, fuel: nat)
    ensures var run := ResearchRun(c, WorkerGraph(ResearcherOutputSchema, cfg, fuel));
      run.Ok? ==> ResearchContent(run.value) == SynthesisError
  {
    if "research_topic" in c.args {
      AsWrittenOutputDropsSummary(cfg, c.args["research_topic"], fuel);
    }
  }

  /** One research call against the corrected worker graph: a finished run yields the worker's summary. */
  lemma CorrectedRunIsSummary(c: ToolCall, cfg: WorkerConfig, fuel: nat)
    ensures var run := ResearchRun(c, WorkerGraph(CorrectedOutputSchema, cfg, fuel));
      run.Ok? ==>
        "research_topic" in c.args &&
        var final := RunWorker(cfg, WorkerSeed(c.args["research_topic"]), fuel);
        final.Ok? &&
        ResearchContent(run.value) ==
          cfg.summariser(CondensationPrompt(GetMsgs(final.value, "researcher_messages"), cfg.condensationInstruction,
            cfg.condensationRequest)).content
  {
    if "research_topic" in c.args {
      CorrectedOutputKeepsSummary(cfg, c.args["research_topic"], fuel);
    }
  }

  /** With the worker graph as compiled, every research answer of a successful execution is the fixed error text. */
  lemma AsWrittenResearchIsFallback(calls: seq<ToolCall>, invoke: (Tool, Args) -> Outcome<string>, cfg: WorkerConfig, fuel: nat)
    requires Execute(calls, invoke, WorkerGraph(ResearcherOutputSchema, cfg, fuel)).Ok?
    ensures var research := Named(calls, "ConductResearchSchema");
      var reflections := Named(calls, "reflection_tool");
      var e := Execute(calls, invoke, WorkerGraph(ResearcherOutputSchema, cfg, fuel)).value;
      |e.toolMessages| == |reflections| + |research| &&
      var later := e.toolMessages[|reflections|..];
      forall j :: 0 <= j < |research| ==> later[j] == ToolMessage(SynthesisError, "ConductResearchSchema", research[j].id)
  {
    var runWorker := WorkerGraph(ResearcherOutputSchema, cfg, fuel);
    ExecuteAnswers(calls, invoke, runWorker);
    var research := Named(calls, "ConductResearchSchema");
    forall j | 0 <= j < |research|
      ensures ResearchRun(research[j], runWorker).Ok? ==> ResearchContent(ResearchRun(research[j], runWorker).value) == SynthesisError
    {
      AsWrittenRunIsFallback(research[j], cfg, fuel);
    }
  }

  /**
   * With the output field spelled as the worker writes it, each research answer of a successful execution is its
   * worker's summary of its own final transcript.
   */
  lemma CorrectedResearchCarriesSummary(calls: seq<ToolCall>, invoke: (Tool, Args) -> Outcome<string>, cfg: WorkerConfig, fuel: nat)
    requires Execute(calls, invoke, WorkerGraph(CorrectedOutputSchema, cfg, fuel)).Ok?
    ensures var research := Named(calls, "ConductResearchSchema");
      var reflections := Named(calls, "reflection_tool");
      var e := Execute(calls, invoke, WorkerGraph(CorrectedOutputSchema, cfg, fuel)).value;
      |e.toolMessages| == |reflections| + |research| &&
      var later := e.toolMessages[|reflections|..];
      forall j :: 0 <= j < |research| ==>
        "research_topic" in research[j].args &&
        var final := RunWorker(cfg, WorkerSeed(research[j].args["research_topic"]), fuel);
        final.Ok? &&
        later[j].content ==
          cfg.summariser(CondensationPrompt(GetMsgs(final.value, "researcher_messages"), cfg.condensationInstruction,
            cfg.condensationRequest)).content
  {
    var runWorker := WorkerGraph(CorrectedOutputSchema, cfg, fuel);
    ExecuteAnswers(calls, invoke, runWorker);
    var research := Named(calls, "ConductResearchSchema");
    forall j | 0 <= j < |research|
      ensures ResearchRun(research[j], runWorker).Ok? ==>
        "research_topic" in research[j].args &&
        var final := RunWorker(cfg, WorkerSeed(research[j].args["research_topic"]), fuel);
        final.Ok? &&
        ResearchContent(ResearchRun(research[j], runWorker).value) ==
          cfg.summariser(CondensationPrompt(GetMsgs(final.value, "researcher_messages"), cfg.condensationInstruction,
            cfg.condensationRequest)).content
    {
      CorrectedRunIsSummary(research[j], cfg, fuel);
    }
  }
}
