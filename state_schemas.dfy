/**
 * The state schemas of the worker graph, the supervisor graph and the top-level graph, each as a map
 * from channel name to reducer, and the output filtering a compiled graph applies to its final state.
 */
module StateSchemas {
  import opened Messages
  import opened Channels

  /** `ResearcherState`: the worker's transcript appends, its raw notes concatenate, the rest overwrite. */
  const ResearcherStateSchema: Schema := map[
    "researcher_messages" := AddMessages,
    "tool_call_iterations" := LastValue,
    "research_topic" := LastValue,
    "compressed_research" := LastValue,
    "raw_notes" := ListAdd]

  /** `ResearcherOutputState`, with its first field spelled `ccompressed_research` as declared. */
  const ResearcherOutputSchema: Schema := map[
    "ccompressed_research" := LastValue,
    "raw_notes" := ListAdd,
    "researcher_messages" := AddMessages]

  /** The channels of a graph compiled from a state schema and an output schema: those of both. */
  function GraphChannels(stateSchema: Schema, outputSchema: Schema): (r: Schema)
    ensures r.Keys == stateSchema.Keys + outputSchema.Keys
  {
    stateSchema + outputSchema
  }

  /** What a compiled graph returns: the written channels that its output schema declares, and only those. */
  function GraphOutput(outputSchema: Schema, finalState: Dict): (r: Dict)
    ensures r.Keys == finalState.Keys * outputSchema.Keys
    ensures forall k :: k in r ==> r[k] == finalState[k]
  {
    map k | k in finalState.Keys * outputSchema.Keys :: finalState[k]
  }

  /** `AgentInputState`: the `messages` of `MessagesState` and nothing else. */
  const AgentInputSchema: Schema := map["messages" := AddMessages]

  /**
   * What a graph compiled with `input_schema=AgentInputState` takes from its input: the conversation, when given,
   * and no other key.
   */
  function AgentInput(input: Dict): (start: Dict)
    ensures start.Keys <= {"messages"}
    ensures "messages" in start <==> "messages" in input
    ensures "messages" in input ==> start["messages"] == input["messages"]
  {
    GraphOutput(AgentInputSchema, input)
  }

  /**
   * `AgentState` (top-level graph): `messages` from `MessagesState`, `supervisor_messages` appending,
   * `notes` and `raw_notes` concatenating from an empty start, `research_brief` and `final_report` overwriting.
   */
  const AgentStateSchema: Schema := map[
    "messages" := AddMessages,
    "research_brief" := LastValue,
    "supervisor_messages" := AddMessages,
    "raw_notes" := ListAdd,
    "notes" := ListAdd,
    "final_report" := LastValue]

  /**
   * The supervisor graph's state. `SupervisorState` is imported from state_schemas_research.py but declared
   * nowhere, so this schema is an assumption: the keys are those the supervisor reads and writes, the shared
   * ones with the top-level reducers (`supervisor_messages` appending, `research_brief` overwriting, `notes`
   * and `raw_notes` concatenating), and the counter `research_iterations` overwriting.
   */
  const SupervisorStateSchema: Schema := map[
    "supervisor_messages" := AddMessages,
    "research_brief" := LastValue,
    "notes" := ListAdd,
    "raw_notes" := ListAdd,
    "research_iterations" := LastValue]

  /** The reducers of the worker state: append, concatenate, and last-writer-wins for the scalar fields. */
  lemma ResearcherReducers(state: Dict, update: Dict)
    requires HoldsMsgs(state, "researcher_messages") && HoldsStrs(state, "raw_notes")
    ensures "researcher_messages" in update && update["researcher_messages"].Msgs? ==>
      GetMsgs(Apply(ResearcherStateSchema, state, update), "researcher_messages")
        == GetMsgs(state, "researcher_messages") + update["researcher_messages"].msgs
    ensures "raw_notes" in update && update["raw_notes"].Strs? ==>
      GetStrs(Apply(ResearcherStateSchema, state, update), "raw_notes")
        == GetStrs(state, "raw_notes") + update["raw_notes"].items
    ensures forall k :: k in {"tool_call_iterations", "research_topic", "compressed_research"} && k in update ==>
      Apply(ResearcherStateSchema, state, update)[k] == update[k]
  {
    if "researcher_messages" in update && update["researcher_messages"].Msgs? {
      ApplyAppendsMessages(ResearcherStateSchema, state, update, "researcher_messages", update["researcher_messages"].msgs);
    }
    if "raw_notes" in update && update["raw_notes"].Strs? {
      ApplyAppendsStrings(ResearcherStateSchema, state, update, "raw_notes", update["raw_notes"].items);
    }
  }

  /** The worker graph's output exposes only the three declared keys; in particular never `compressed_research`. */
  lemma ResearcherOutputKeys(finalState: Dict)
    ensures GraphOutput(ResearcherOutputSchema, finalState).Keys
      <= {"ccompressed_research", "raw_notes", "researcher_messages"}
    ensures "compressed_research" !in GraphOutput(ResearcherOutputSchema, finalState)
  {
  }

  /**
   * The reducers of the top-level state: `notes`, `raw_notes` and `supervisor_messages` only grow, by
   * exactly the update, starting from empty; `research_brief` (which may be `None`) and `final_report`
   * take the last value written.
   */
  lemma AgentReducers(state: Dict, update: Dict)
    requires HoldsStrs(state, "notes") && HoldsStrs(state, "raw_notes") && HoldsMsgs(state, "supervisor_messages")
    ensures forall k :: k in {"notes", "raw_notes"} && k in update && update[k].Strs? ==>
      GetStrs(Apply(AgentStateSchema, state, update), k) == GetStrs(state, k) + update[k].items
    ensures "supervisor_messages" in update && update["supervisor_messages"].Msgs? ==>
      GetMsgs(Apply(AgentStateSchema, state, update), "supervisor_messages")
        == GetMsgs(state, "supervisor_messages") + update["supervisor_messages"].msgs
    ensures forall k :: k in {"research_brief", "final_report"} && k in update ==>
      Apply(AgentStateSchema, state, update)[k] == update[k]
    ensures "notes" !in state && "notes" in update && update["notes"].Strs? ==>
      GetStrs(Apply(AgentStateSchema, state, update), "notes") == update["notes"].items
  {
    forall k | k in {"notes", "raw_notes"} && k in update && update[k].Strs?
      ensures GetStrs(Apply(AgentStateSchema, state, update), k) == GetStrs(state, k) + update[k].items
    {
      ApplyAppendsStrings(AgentStateSchema, state, update, k, update[k].items);
    }
    if "supervisor_messages" in update && update["supervisor_messages"].Msgs? {
      ApplyAppendsMessages(AgentStateSchema, state, update, "supervisor_messages", update["supervisor_messages"].msgs);
    }
  }
}
