/**
 * The research worker variant whose tools come from an MCP server: the agent step loads and binds the
 * server's tools once, the tools step fetches them afresh on every call, and condensation writes its
 * summary under another key.
 */
module McpResearcher {
  import opened Common
  import opened Messages
  import opened Channels
  import opened ToolRegistry
  import opened Researcher

  /** A chat model object, and the tools it has been bound to (`bind_tools` returns a new one). */
  datatype Runnable = Runnable(model: string, boundTools: seq<Tool>)

  function BindTools(runnable: Runnable, tools: seq<Tool>): Runnable {
    Runnable(runnable.model, tools)
  }

  /** The tools the agent binds and the tools step indexes: the server's tools, then the reflection tool. */
  function McpToolSet(serverTools: seq<Tool>): (r: seq<Tool>)
    ensures |r| == |serverTools| + 1 && r[..|serverTools|] == serverTools && r[|serverTools|] == ReflectionTool
  {
    serverTools + [ReflectionTool]
  }

  /** `ResearchAgentNode` of the MCP variant, with its load-once state. Locking is not modelled. */
  class McpResearchAgentNode {
    const runnable: Runnable
    var runnableWithTools: Option<Runnable>
    var toolsLoaded: bool

    /** The flag is set exactly when a bound model is cached. */
    ghost predicate Valid()
      reads this
    {
      toolsLoaded <==> runnableWithTools.Some?
    }

    constructor (runnable: Runnable)
      ensures Valid() && this.runnable == runnable
      ensures !toolsLoaded && runnableWithTools == None
    {
      this.runnable := runnable;
      runnableWithTools := None;
      toolsLoaded := false;
    }

    /**
     * `__call__`: on the first call (or after a failed one) fetch the server's tools (`serverTools` is what that
     * fetch gives), bind them with the reflection tool and set the flag; a failed fetch raises and leaves the
     * flag unset. Then the bound model answers the instruction followed by the transcript.
     */
    method Call(state: Dict, serverTools: Outcome<seq<Tool>>, ainvoke: (Runnable, seq<Message>) -> Message,
                instruction: string) returns (r: Outcome<Dict>)
      requires Valid() && HasMsgs(state, "researcher_messages")
      modifies this
      ensures Valid()
      ensures old(toolsLoaded) ==> runnableWithTools == old(runnableWithTools)
      ensures !old(toolsLoaded) && serverTools.Raised? ==> !toolsLoaded && runnableWithTools == None
      ensures !old(toolsLoaded) && serverTools.Ok? ==>
        runnableWithTools == Some(BindTools(runnable, McpToolSet(serverTools.value)))
      ensures r.Ok? <==> toolsLoaded
      ensures r.Ok? ==> r.value == map["researcher_messages" :=
        Msgs([ainvoke(runnableWithTools.value, [SystemMessage(instruction)] + GetMsgs(state, "researcher_messages"))])]
    {
      if !toolsLoaded {
        if serverTools.Raised? {
          return Raised;
        }
        runnableWithTools := Some(BindTools(runnable, McpToolSet(serverTools.value)));
        toolsLoaded := true;
      }
      var reply := ainvoke(runnableWithTools.value, [SystemMessage(instruction)] + state["researcher_messages"].msgs);
      r := Ok(map["researcher_messages" := Msgs([reply])]);
    }
  }

  /** Two calls on a fresh node over any model: the first loads the tools, the second neither reloads nor fails, whatever a fetch would give. */
  method LoadsOnce(runnable: Runnable, state: Dict, first: seq<Tool>, second: Outcome<seq<Tool>>,
                   ainvoke: (Runnable, seq<Message>) -> Message, instruction: string)
    returns (bound: Option<Runnable>, again: Outcome<Dict>)
    requires HasMsgs(state, "researcher_messages")
    ensures bound == Some(Runnable(runnable.model, McpToolSet(first)))
    ensures again.Ok?
  {
    var node := new McpResearchAgentNode(runnable);
    var r1 := node.Call(state, Ok(first), ainvoke, instruction);
    again := node.Call(state, second, ainvoke, instruction);
    bound := node.runnableWithTools;
  }

  /** A failed load is retried: after a first call that raises, a second call with a working server loads and answers. */
  method RetriesAfterFailure(runnable: Runnable, state: Dict, tools: seq<Tool>, ainvoke: (Runnable, seq<Message>) -> Message, instruction: string)
    returns (first: Outcome<Dict>, second: Outcome<Dict>, bound: Option<Runnable>)
    requires HasMsgs(state, "researcher_messages")
    ensures first == Raised && second.Ok?
    ensures bound == Some(Runnable(runnable.model, McpToolSet(tools)))
  {
    var node := new McpResearchAgentNode(runnable);
    first := node.Call(state, Raised, ainvoke, instruction);
    second := node.Call(state, Ok(tools), ainvoke, instruction);
    bound := node.runnableWithTools;
  }

  /** How the MCP tools step runs a call: the reflection tool with `invoke`, every other tool with `ainvoke`. */
  function McpRunner(invoke: (Tool, Args) -> Outcome<string>, ainvoke: (Tool, Args) -> Outcome<string>): (r: ToolRunner)
    ensures forall c: ToolCall, t: Tool :: c.name == "reflection_tool" ==> r(c, t) == invoke(t, c.args)
    ensures forall c: ToolCall, t: Tool :: c.name != "reflection_tool" ==> r(c, t) == ainvoke(t, c.args)
  {
    (c: ToolCall, t: Tool) => if c.name == "reflection_tool" then invoke(t, c.args) else ainvoke(t, c.args)
  }

  /** The MCP tools step as a specification: fetching the server's tools may raise; then the shared tools step. */
  function McpToolsStep(state: Dict, serverTools: Outcome<seq<Tool>>,
                        invoke: (Tool, Args) -> Outcome<string>, ainvoke: (Tool, Args) -> Outcome<string>): (r: Outcome<Dict>)
    requires |GetMsgs(state, "researcher_messages")| > 0
    ensures serverTools.Raised? ==> r.Raised?
    ensures r.Ok? ==> r.value.Keys == {"researcher_messages"} && r.value["researcher_messages"].Msgs?
    ensures r.Ok? ==> |r.value["researcher_messages"].msgs| == |Last(GetMsgs(state, "researcher_messages")).ToolCalls()|
  {
    match serverTools
    case Raised => Raised
    case Ok(tools) => ToolsStep(state, ByName(McpToolSet(tools)), McpRunner(invoke, ainvoke))
  }

  /** `tools_node`: fetch the server's tools, index them by name, then run the calls in order. */
  method McpToolsNode(state: Dict, serverTools: Outcome<seq<Tool>>,
                      invoke: (Tool, Args) -> Outcome<string>, ainvoke: (Tool, Args) -> Outcome<string>)
    returns (r: Outcome<Dict>)
    requires |GetMsgs(state, "researcher_messages")| > 0
    ensures r == McpToolsStep(state, serverTools, invoke, ainvoke)
  {
    if serverTools.Raised? {
      return Raised;
    }
    r := ExecuteToolCalls(state, ByName(McpToolSet(serverTools.value)), McpRunner(invoke, ainvoke));
  }

  /**
   * With the server reachable, the MCP tools step answers each call once, in order, with its name and id;
   * a reflection call is answered by the reflection tool run synchronously, even when the server also offers a
   * tool of that name, and every other call by its server tool run asynchronously.
   */
  lemma McpToolsAnswers(state: Dict, tools: seq<Tool>,
                        invoke: (Tool, Args) -> Outcome<string>, ainvoke: (Tool, Args) -> Outcome<string>)
    requires |GetMsgs(state, "researcher_messages")| > 0
    ensures var calls := Last(GetMsgs(state, "researcher_messages")).ToolCalls();
      var byName := ByName(McpToolSet(tools));
      McpToolsStep(state, Ok(tools), invoke, ainvoke).Ok? ==>
        var answers := McpToolsStep(state, Ok(tools), invoke, ainvoke).value["researcher_messages"].msgs;
        |answers| == |calls| &&
        forall i :: 0 <= i < |calls| ==>
          answers[i].ToolMessage? && answers[i].name == calls[i].name && answers[i].toolCallId == calls[i].id &&
          calls[i].name in byName &&
          (if calls[i].name == "reflection_tool" then invoke(ReflectionTool, calls[i].args) == Ok(answers[i].content)
           else ainvoke(byName[calls[i].name], calls[i].args) == Ok(answers[i].content))
    ensures "reflection_tool" in ByName(McpToolSet(tools)) && ByName(McpToolSet(tools))["reflection_tool"] == ReflectionTool
  {
    var all := McpToolSet(tools);
    ByNameLastWins(all, |tools|);
    ToolsStepAnswersEachCall(state, ByName(all), McpRunner(invoke, ainvoke));
  }

  /** A reply without tool calls (a missing list counts as empty) yields no tool messages at all. */
  lemma McpNoCallsNoMessages(state: Dict, tools: seq<Tool>,
                             invoke: (Tool, Args) -> Outcome<string>, ainvoke: (Tool, Args) -> Outcome<string>)
    requires |GetMsgs(state, "researcher_messages")| > 0
    requires Last(GetMsgs(state, "researcher_messages")).ToolCalls() == []
    ensures McpToolsStep(state, Ok(tools), invoke, ainvoke) == Ok(map["researcher_messages" := Msgs([])])
  {
  }

  /** `ResearchCondensationNode.__call__` of the MCP variant writes the summary under `condensed_research`. */
  function McpCondensation(state: Dict, summariser: ChatModel, instruction: string, request: string): (u: Dict)
    requires HasMsgs(state, "researcher_messages")
    ensures "condensed_research" in u && "compressed_research" !in u
    ensures u["condensed_research"]
      == Str(summariser(CondensationPrompt(GetMsgs(state, "researcher_messages"), instruction, request)).content)
    ensures "raw_notes" in u && u["raw_notes"] == Strs([Join("\n", NoteContents(GetMsgs(state, "researcher_messages")))])
  {
    CondensationUpdate("condensed_research", state, summariser, instruction, request)
  }

  /**
   * `condensed_research` is not a channel of the worker graph, so applying the MCP condensation drops the
   * summary: the state gains no summary key and only the one joined raw-notes entry.
   */
  lemma McpSummaryDropped(state: Dict, summariser: ChatModel, instruction: string, request: string)
    requires HasMsgs(state, "researcher_messages") && HoldsStrs(state, "raw_notes")
    ensures var after := Apply(WorkerChannels(), state, McpCondensation(state, summariser, instruction, request));
      ("condensed_research" in after <==> "condensed_research" in state) &&
      ("compressed_research" in after <==> "compressed_research" in state) &&
      GetStrs(after, "raw_notes") == GetStrs(state, "raw_notes") + [Join("\n", NoteContents(GetMsgs(state, "researcher_messages")))]
  {
    var u := McpCondensation(state, summariser, instruction, request);
    assert "condensed_research" !in WorkerChannels();
    ApplyAppendsStrings(WorkerChannels(), state, u, "raw_notes", u["raw_notes"].items);
  }
}
