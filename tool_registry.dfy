/** The tool registry: selecting tools by name and indexing a tool list by tool name. */
module ToolRegistry {
  import opened Common

  /** What a tool does when invoked; an MCP server tool is identified by the handle the server gave it. */
  datatype ToolKind = TavilySearch | Reflection | McpTool(handle: string)

  /** A tool object: the name the model calls it by, and its implementation. */
  datatype Tool = Tool(name: string, kind: ToolKind)

  const TavilySearchTool: Tool := Tool("tavily_search", TavilySearch)
  const ReflectionTool: Tool := Tool("reflection_tool", Reflection)

  /** The registry's `all_tools` dictionary, looked up by key. */
  function Registered(name: string): Option<Tool> {
    if name == "tavily_search" then Some(TavilySearchTool)
    else if name == "reflection_tool" then Some(ReflectionTool)
    else None
  }

  /** The registered tool for each requested name that is registered, in request order, repetitions kept. */
  function SelectRegistered(names: seq<string>): seq<Tool>
    decreases |names|
  {
    if |names| == 0 then []
    else (match Registered(names[0]) case Some(t) => [t] case None => []) + SelectRegistered(names[1..])
  }

  /** `get_tools(tool_names)`: `None` asks for every registered tool in registration order. */
  function GetTools(names: Option<seq<string>>): (r: seq<Tool>)
    ensures names.None? ==> r == [TavilySearchTool, ReflectionTool]
    ensures forall t :: t in r ==> t in [TavilySearchTool, ReflectionTool]
  {
    match names
    case None => [TavilySearchTool, ReflectionTool]
    case Some(ns) => SelectRegisteredIsRegistered(ns); SelectRegistered(ns)
  }

  lemma {:induction false} SelectRegisteredIsRegistered(names: seq<string>)
    ensures forall t :: t in SelectRegistered(names) ==> t in [TavilySearchTool, ReflectionTool]
    decreases |names|
  {
    if |names| > 0 {
      SelectRegisteredIsRegistered(names[1..]);
    }
  }

  /** The names the registry knows, kept in request order and with repetitions. */
  function KnownNames(names: seq<string>): seq<string>
    decreases |names|
  {
    if |names| == 0 then []
    else (if Registered(names[0]).Some? then [names[0]] else []) + KnownNames(names[1..])
  }

  function Names(tools: seq<Tool>): (r: seq<string>)
    ensures |r| == |tools| && forall i :: 0 <= i < |r| ==> r[i] == tools[i].name
  {
    seq(|tools|, i requires 0 <= i < |tools| => tools[i].name)
  }

  /**
   * `get_tools(names)` returns one tool per registered name, in the order of `names`, repetitions kept,
   * and silently drops the names the registry does not know.
   */
  lemma {:induction false} GetToolsFollowsNames(names: seq<string>)
    ensures Names(GetTools(Some(names))) == KnownNames(names)
    decreases |names|
  {
    if |names| > 0 {
      GetToolsFollowsNames(names[1..]);
      var head := match Registered(names[0]) case Some(t) => [t] case None => [];
      assert SelectRegistered(names) == head + SelectRegistered(names[1..]);
      assert Names(head + SelectRegistered(names[1..])) == Names(head) + Names(SelectRegistered(names[1..]));
    }
  }

  /** Selecting from a concatenated request is selecting from each part: dropping a name affects nothing else. */
  lemma {:induction false} GetToolsDistributes(a: seq<string>, b: seq<string>)
    ensures GetTools(Some(a + b)) == GetTools(Some(a)) + GetTools(Some(b))
    decreases |a|
  {
    if |a| > 0 {
      assert (a + b)[0] == a[0];
      assert (a + b)[1..] == a[1..] + b;
      GetToolsDistributes(a[1..], b);
    } else {
      assert a + b == b;
    }
  }

  /** The supervisor's request at module load keeps only `reflection_tool`: the two schema names are not registered. */
  lemma SupervisorToolRequest()
    ensures GetTools(Some(["conduct_research_schema", "research_complete_schema", "reflection_tool"]))
      == [ReflectionTool]
  {
    assert Registered("conduct_research_schema") == None;
    assert Registered("research_complete_schema") == None;
  }

  /** The worker's request keeps only `tavily_search`: `think_tool` is not a registered name. */
  lemma WorkerToolRequest()
    ensures GetTools(Some(["tavily_search", "think_tool"])) == [TavilySearchTool]
  {
    assert Registered("think_tool") == None;
  }

  /** An index from tool name to tool, built left to right, so a later tool with the same name replaces an earlier one. */
  function ByName(tools: seq<Tool>): map<string, Tool>
    decreases |tools|
  {
    if |tools| == 0 then map[]
    else ByName(tools[..|tools| - 1])[tools[|tools| - 1].name := tools[|tools| - 1]]
  }

  /** `get_tools_by_name(tools)`: `None` means the whole registry. */
  function GetToolsByName(tools: Option<seq<Tool>>): map<string, Tool> {
    match tools
    case None => ByName(GetTools(None))
    case Some(ts) => ByName(ts)
  }

  /** The keys are exactly the tools' names, and each maps to a tool of the list that carries that name. */
  lemma {:induction false} ByNameKeys(tools: seq<Tool>)
    ensures ByName(tools).Keys == set t | t in tools :: t.name
    ensures forall n :: n in ByName(tools) ==> ByName(tools)[n] in tools && ByName(tools)[n].name == n
    decreases |tools|
  {
    if |tools| > 0 {
      var init := tools[..|tools| - 1];
      ByNameKeys(init);
      assert tools == init + [tools[|tools| - 1]];
    }
  }

  /** A name maps to the LAST tool in the list that carries it. */
  lemma {:induction false} ByNameLastWins(tools: seq<Tool>, j: nat)
    requires j < |tools|
    requires forall k :: j < k < |tools| ==> tools[k].name != tools[j].name
    ensures tools[j].name in ByName(tools) && ByName(tools)[tools[j].name] == tools[j]
    decreases |tools|
  {
    if j < |tools| - 1 {
      var init := tools[..|tools| - 1];
      ByNameLastWins(init, j);
    }
  }

  /** With no list given, every registered tool is reachable under its own name. */
  lemma GetToolsByNameDefault()
    ensures GetToolsByName(None) == map["tavily_search" := TavilySearchTool, "reflection_tool" := ReflectionTool]
  {
    var ts := [TavilySearchTool, ReflectionTool];
    assert ts[..1] == [TavilySearchTool];
    assert ts[..1][..0] == [];
    assert ByName(ts[..1]) == map["tavily_search" := TavilySearchTool];
    assert ByName(ts) == ByName(ts[..1])["reflection_tool" := ReflectionTool];
  }
}
