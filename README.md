# Deep research orchestration, modelled in Dafny

This project models the deterministic control logic of a LangGraph multi-agent research assistant. The assistant works in four stages:

- **Scoping.** It clarifies the user's intent and turns the conversation into a research brief.
- **Supervision.** A supervisor agent reads the brief and, round by round, delegates topics to parallel research workers, records reflections and decides when to stop.
- **Research.** Each worker runs a tool-calling loop, then condenses what it found into a summary and raw notes.
- **Reporting.** A writer turns the supervisor's notes into the final report.

Every language model and every tool is an uninterpreted oracle, passed in as a function parameter. This covers the chat models, the structured-output models, the search tools, the reflection tool, the MCP tool server and the helper that extracts notes from the supervisor transcript. What the project proves is everything around those calls:

- routing and termination
- the partition of tool calls
- the pairing of answers with calls by name and id
- the order of results
- the raw-notes bookkeeping
- the exception paths
- the state-channel reducers
- the output-schema filtering that decides what a worker hands back
- the bound on the supervisor's decisions

**How the pieces are represented.**

- **Graph state.** A LangGraph state is a dictionary from channel names to values (`Channels.Dict`). A node returns an update dictionary. `Channels.Apply` merges it with each channel's reducer:
  - a plain field overwrites;
  - a list annotated with list addition concatenates;
  - a message list annotated with the message reducer appends.

  Keys that are not channels of the graph are dropped.
- **Graph output.** A compiled graph returns its final state restricted to its output schema (`StateSchemas.GraphOutput`).
- **Graph input.** The scoping graph and the top-level graph are compiled with the input schema `AgentInputState`, so a run starts from the conversation alone (`StateSchemas.AgentInput`).
- **Exceptions.** A raised exception is `Outcome.Raised`.
- **Step limit.** The engine's step limit is the `fuel` of the worker loop.
- **Parallel workers.** The supervisor starts its workers in parallel and gathers their results in request order. This is modelled as an order-preserving sequential map (`Supervisor.Gather`).

The modules follow the program's files:

| module | models |
|---|---|
| `Common` | optional values, outcomes, string join |
| `Messages` | chat messages, tool calls, pairing answers with calls |
| `Channels` | state dictionaries and reducers |
| `StateSchemas` | the declared state and output schemas |
| `ToolRegistry` | `tools/base.py` |
| `ThinkTool` | `tools/think_tool.py` |
| `Researcher` | `research_agent.py` |
| `McpResearcher` | `research_agent_mcp.py` |
| `Supervisor` | `research_multi_agent_supervisor.py` |
| `Scope` | `research_agent_scope.py` |
| `DeepResearch` | `deep_research.py` |

## Model

| member | source | states |
|---|---|---|
| Common.Join | src/deep_research_multi_agent/deep_research.py:86 | An empty list joins to the empty string. A non-empty join is at least as long as its first part and as its last. |
| Common.JoinEnds | src/deep_research_multi_agent/deep_research.py:86 | A non-empty join starts with the first part and finishes with the last. |
| Common.JoinLength | src/deep_research_multi_agent/deep_research.py:86 | A newline join of n ≥ 1 parts is as long as the parts together plus n − 1 separators. |
| Common.JoinContains | src/deep_research_multi_agent/deep_research.py:86 | Every part occurs, unchanged, inside the joined string. |
| Common.JoinAppend | src/deep_research_multi_agent/research_agent.py:261 | Joining two non-empty lists of parts is joining each and putting one separator between them. |
| Messages.ToolMessagesFor | src/deep_research_multi_agent/research_agent.py:178-184 | Pairing observations with calls gives as many tool messages as the shorter list. The i-th carries the i-th observation and the i-th call's name and id. |
| Channels.Merge | src/deep_research_multi_agent/state_schemas_research.py:37-41 | A field without a reducer takes the update. A channel never written takes the update whatever its reducer. |
| Channels.Apply | src/deep_research_multi_agent/state_schemas_research.py:37-41 | After an update, the keys are the old keys plus the update's keys that are channels. Untouched keys and non-channel update keys leave the state as it was. Overwriting channels hold the new value. |
| Channels.ApplyAppendsMessages | src/deep_research_multi_agent/state_schemas_research.py:37 | A message channel grows by exactly the update's messages, appended after the old ones. |
| Channels.ApplyAppendsStrings | src/deep_research_multi_agent/state_schemas_research.py:41 | A list channel with list addition grows by exactly the update's items, appended after the old ones. |
| Channels.ApplyKeepsUntouched | src/deep_research_multi_agent/state_schemas_research.py:37-41 | A channel the update does not mention keeps its presence and its message, string-list and integer readings. |
| StateSchemas.GraphChannels | src/deep_research_multi_agent/research_agent.py:294 | A graph compiled with a state schema and an output schema has the channels of both. |
| StateSchemas.GraphOutput | src/deep_research_multi_agent/research_agent.py:294 | A graph's output holds exactly the final state's keys that the output schema declares, with their final values. |
| StateSchemas.ResearcherReducers | src/deep_research_multi_agent/state_schemas_research.py:37-41 | In the worker state the transcript appends and the raw notes concatenate. The iteration counter, the topic and the summary overwrite. |
| StateSchemas.ResearcherOutputKeys | src/deep_research_multi_agent/state_schemas_research.py:65-67 | The worker's output has at most the declared keys `ccompressed_research`, `raw_notes` and `researcher_messages`, so never `compressed_research`. |
| StateSchemas.AgentInput | src/deep_research_multi_agent/state_schemas_scope.py:9-20 | A graph with this input schema takes the conversation, when given, and no other key. |
| StateSchemas.AgentReducers | src/deep_research_multi_agent/state_schemas_scope.py:55-59 | In the top-level state, notes and raw notes concatenate and the supervisor transcript appends. Notes never written become exactly the update's items. The brief and the report overwrite. |
| ToolRegistry.GetTools | src/deep_research_multi_agent/tools/base.py:19-27 | With no names, every registered tool in registration order. With names, only registered tools are returned. |
| ToolRegistry.SelectRegisteredIsRegistered | src/deep_research_multi_agent/tools/base.py:27 | A name filter never yields a tool that is not in the registry. |
| ToolRegistry.GetToolsFollowsNames | src/deep_research_multi_agent/tools/base.py:27 | The tools returned are named, in order and with repetitions, after exactly the requested names that are registered. Unknown names are skipped silently. |
| ToolRegistry.GetToolsDistributes | src/deep_research_multi_agent/tools/base.py:27 | Requesting a concatenation of names returns the concatenation of the two answers. |
| ToolRegistry.SupervisorToolRequest | src/deep_research_multi_agent/research_multi_agent_supervisor.py:287 | The supervisor's request for the two schema names and the reflection tool yields only the reflection tool. |
| ToolRegistry.WorkerToolRequest | src/deep_research_multi_agent/research_agent.py:268 | The worker's request for the search and think tools yields only the search tool. |
| ToolRegistry.ByNameKeys | src/deep_research_multi_agent/tools/base.py:45 | The name index has exactly the tools' names as keys. Each key maps to a listed tool of that name. |
| ToolRegistry.ByNameLastWins | src/deep_research_multi_agent/tools/base.py:45 | When a name occurs more than once, the index keeps its last tool. |
| ToolRegistry.GetToolsByNameDefault | src/deep_research_multi_agent/tools/base.py:41-45 | With no tools given, the index covers the whole registry. |
| ThinkTool.ThinkTool | src/deep_research_multi_agent/tools/think_tool.py:51 | The acknowledgement is the fixed prefix followed by the reflection, verbatim, and its length is the sum of the two. |
| ThinkTool.ThinkToolInjective | src/deep_research_multi_agent/tools/think_tool.py:51 | Different reflections give different acknowledgements. |
| ThinkTool.ThinkToolSuffix | src/deep_research_multi_agent/tools/think_tool.py:51 | The reflection is a suffix of the acknowledgement, after a prefix exactly as long as the fixed acknowledgement text. |
| Researcher.WorkerToolsByName | src/deep_research_multi_agent/research_agent.py:268-269 | The worker's tool index holds only the search tool. |
| Researcher.WorkerChannels | src/deep_research_multi_agent/research_agent.py:294 | The worker graph's channels include the appending transcript, the concatenating raw notes and an overwriting `compressed_research`. |
| Researcher.AgentNode | src/deep_research_multi_agent/research_agent.py:80-87 | The update holds exactly one message: the model's reply to the instruction followed by the whole transcript. |
| Researcher.AgentAppendsOne | src/deep_research_multi_agent/research_agent.py:80-87 | Applied, the agent step makes the transcript one message longer, ending with that reply. |
| Researcher.RouteOf | src/deep_research_multi_agent/research_agent.py:119-128 | The route is the tools step if and only if the last message asks for tools; otherwise it is condensation. The MCP variant's route at research_agent_mcp.py:157-166 is the same function. |
| Researcher.ExecuteAll | src/deep_research_multi_agent/research_agent.py:170-173 | A run that returns gives one observation per call, and every call named a registered tool. |
| Researcher.ExecuteAllSpec | src/deep_research_multi_agent/research_agent.py:171-174 | Sequential execution succeeds exactly when every name is indexed and every tool run succeeds. It then has one observation per call, in order. |
| Researcher.ExecutePrefixRaised | src/deep_research_multi_agent/research_agent.py:172-174 | A failure in a prefix of the calls aborts the whole step. |
| Researcher.ToolsStep | src/deep_research_multi_agent/research_agent.py:167-186 | A tools step that returns writes only the worker transcript: one message per requested call. |
| Researcher.ExecuteToolCalls | src/deep_research_multi_agent/research_agent.py:167-186 | The loop over the calls returns exactly the tools step's specified outcome. |
| Researcher.ToolsNode | src/deep_research_multi_agent/research_agent.py:167-186 | The worker's tools step, with its own index and invocation, returns the specified outcome. |
| Researcher.ToolsStepAnswersEachCall | src/deep_research_multi_agent/research_agent.py:178-186 | A successful tools step writes only the transcript: one tool message per call, in order, carrying the call's result, name and id. It succeeds exactly when every call does. |
| Researcher.ThinkToolCallFails | src/deep_research_multi_agent/research_agent.py:173 | Any call to `think_tool` makes the worker's tools step raise, because the name is not in its index. |
| Researcher.NoteContents | src/deep_research_multi_agent/research_agent.py:255-258 | The raw notes are at most one per message, and each is the content of some AI or tool message of the transcript. |
| Researcher.NoteContentsAppend | src/deep_research_multi_agent/research_agent.py:252-257 | Note extraction distributes over concatenated transcripts. |
| Researcher.NoteContentsSingle | src/deep_research_multi_agent/research_agent.py:252-257 | A message contributes its content exactly when it is an AI or tool message. |
| Researcher.CondensationPrompt | src/deep_research_multi_agent/research_agent.py:240-245 | The summariser sees the instruction, then every transcript message unchanged, then one human request. |
| Researcher.CondensationUpdate | src/deep_research_multi_agent/research_agent.py:259-262 | The update writes exactly the summary key and the raw notes, the latter as a single entry. |
| Researcher.Condensation | src/deep_research_multi_agent/research_agent.py:248-262 | The summary under `compressed_research` is the summariser's reply. The raw notes are one newline-joined entry of the AI and tool contents. |
| Researcher.AgentStep | src/deep_research_multi_agent/research_agent.py:80-87 | After the agent step the transcript is non-empty and the raw notes are unchanged. |
| Researcher.ToolsApplied | src/deep_research_multi_agent/research_agent.py:186 | A successful tools step leaves the raw notes unchanged. |
| Researcher.CondensationStep | src/deep_research_multi_agent/research_agent.py:306-315 | Condensing after a reply without tool calls stores the summary of the final transcript. It adds exactly one raw-notes entry. |
| Researcher.RunWorker | src/deep_research_multi_agent/research_agent.py:297-315 | A run that returns took at least one agent step and wrote the summary channel. |
| Researcher.AfterAgent | src/deep_research_multi_agent/research_agent.py:306-315 | From the routing step on, a run that returns has written the summary channel. |
| Researcher.RunWorkerResult | src/deep_research_multi_agent/research_agent.py:305-315 | Every finished worker run ended in condensation, right after a reply without tool calls, with the summary and one joined raw-notes entry. |
| Researcher.AfterAgentResult | src/deep_research_multi_agent/research_agent.py:306-315 | From the routing step on, a finished run likewise ends in one condensation that starts from the raw notes it had. |
| Researcher.AfterCondensation | src/deep_research_multi_agent/research_agent.py:306-315 | A reply without tool calls routes to condensation, and the applied condensation update is the run's final state. |
| Researcher.AfterTools | src/deep_research_multi_agent/research_agent.py:306-314 | After a tools step that returned, the run goes back to the agent step with the fuel that is left. |
| Researcher.WorkerSeed | src/deep_research_multi_agent/research_multi_agent_supervisor.py:226-231 | A worker starts from the topic as its only message, with no raw notes. |
| Researcher.Workflow | src/deep_research_multi_agent/research_agent.py:294-318 | The output holds only declared output keys. When the output schema declares `compressed_research`, a finished run hands it back. |
| Researcher.AsWrittenOutputDropsSummary | src/deep_research_multi_agent/state_schemas_research.py:65 | As compiled, no finished worker's output carries `compressed_research`. |
| Researcher.CorrectedOutputKeepsSummary | src/deep_research_multi_agent/research_agent.py:260 | With the output field spelled as written by the worker, the output carries the summariser's reply and exactly the one joined raw-notes entry. |
| McpResearcher.McpToolSet | src/deep_research_multi_agent/research_agent_mcp.py:111 | The bound tools are the server's tools, in order, followed by the reflection tool. |
| McpResearcher.McpResearchAgentNode.constructor | src/deep_research_multi_agent/research_agent_mcp.py:65-67 | A new node has no tools loaded and no bound model. |
| McpResearcher.McpResearchAgentNode.Call | src/deep_research_multi_agent/research_agent_mcp.py:100-125 | Tools are loaded at most once. A failed load raises and leaves the node unloaded, so a later call retries. A successful load binds the server tools plus the reflection tool. The call succeeds exactly when tools are loaded, and then appends the bound model's one reply. |
| McpResearcher.LoadsOnce | src/deep_research_multi_agent/research_agent_mcp.py:100-115 | For any model, a second call on a loaded node keeps the first binding, whatever the server would now return. |
| McpResearcher.RetriesAfterFailure | src/deep_research_multi_agent/research_agent_mcp.py:103-115 | For any model, after a failed first load the next call loads and binds the tools. |
| McpResearcher.McpRunner | src/deep_research_multi_agent/research_agent_mcp.py:379-385 | A reflection call runs with the synchronous invoke, and every other call with the asynchronous one. |
| McpResearcher.McpToolsStep | src/deep_research_multi_agent/research_agent_mcp.py:361-401 | An unreachable server makes the step raise. A step that returns writes only the transcript, one message per call. |
| McpResearcher.McpToolsNode | src/deep_research_multi_agent/research_agent_mcp.py:361-401 | The MCP tools step returns its specified outcome: fetching the server's tools may raise, then the calls run in order. |
| McpResearcher.McpToolsAnswers | src/deep_research_multi_agent/research_agent_mcp.py:370-397 | One tool message per call, in order, with its name and id. The reflection tool runs synchronously and every other tool asynchronously. `reflection_tool` wins a name clash with a server tool. |
| McpResearcher.McpNoCallsNoMessages | src/deep_research_multi_agent/research_agent_mcp.py:361 | A last message without tool calls yields an empty list of tool messages. |
| McpResearcher.McpCondensation | src/deep_research_multi_agent/research_agent_mcp.py:314-324 | The summariser's reply goes under `condensed_research`, never `compressed_research`. The raw notes are the same single joined entry. |
| McpResearcher.McpSummaryDropped | src/deep_research_multi_agent/research_agent_mcp.py:322 | Applied to the worker state, the MCP summary is dropped: it is not a channel. |
| Supervisor.Decide | src/deep_research_multi_agent/research_multi_agent_supervisor.py:98-123 | A decision always goes to the tools step. It appends exactly the model's reply to the instruction and the transcript, and sets the counter to its old value (0 when absent) plus one. |
| Supervisor.DecideAdvances | src/deep_research_multi_agent/research_multi_agent_supervisor.py:117-123 | Applied, a decision makes the transcript one message longer and raises the counter by exactly one. |
| Supervisor.ShouldEnd | src/deep_research_multi_agent/research_multi_agent_supervisor.py:184-192 | The supervisor continues only below the cap and with at least one call. A first call of `ResearchCompleteSchema` ends it. |
| Supervisor.AnyNamedSpec | src/deep_research_multi_agent/research_multi_agent_supervisor.py:186-189 | The completion test holds if and only if some call has that name. |
| Supervisor.Named | src/deep_research_multi_agent/research_multi_agent_supervisor.py:200-207 | A partition keeps only calls of the given name, never more calls than there were. |
| Supervisor.NamedAppend | src/deep_research_multi_agent/research_multi_agent_supervisor.py:200-207 | The partition distributes over concatenated call lists, so it preserves request order. |
| Supervisor.NamedMembership | src/deep_research_multi_agent/research_multi_agent_supervisor.py:200-207 | A call is kept if and only if it was requested under that name. |
| Supervisor.NamedExtremes | src/deep_research_multi_agent/research_multi_agent_supervisor.py:200-207 | The partition keeps all calls when all share the name, and none when none does. |
| Supervisor.InvokeEach | src/deep_research_multi_agent/research_multi_agent_supervisor.py:208-213 | Reflection that returns gives one observation per reflection call. |
| Supervisor.InvokeEachSpec | src/deep_research_multi_agent/research_multi_agent_supervisor.py:210-219 | The reflection loop succeeds exactly when every invocation does. It then has one result per call, in order. |
| Supervisor.InvokeEachPrefixRaised | src/deep_research_multi_agent/research_multi_agent_supervisor.py:210-219 | A failing reflection aborts the whole loop. |
| Supervisor.Topics | src/deep_research_multi_agent/research_multi_agent_supervisor.py:225-233 | Reading the topics succeeds exactly when every research call has a `research_topic` argument. It then gives those topics in order. |
| Supervisor.Gather | src/deep_research_multi_agent/research_multi_agent_supervisor.py:225-236 | Gathering succeeds exactly when every worker run does. It then gives the i-th topic's result at position i. |
| Supervisor.ResearchContent | src/deep_research_multi_agent/research_multi_agent_supervisor.py:243-249 | A research answer is the result's `compressed_research`, or the fixed error text when that key is absent. |
| Supervisor.RawNote | src/deep_research_multi_agent/research_multi_agent_supervisor.py:255-258 | A worker output without the raw-notes key gives the empty entry. A worker with one joined entry gives back exactly that entry. |
| Supervisor.ReflectionToolSelected | src/deep_research_multi_agent/research_multi_agent_supervisor.py:211 | The supervisor's first selected tool is the reflection tool. |
| Supervisor.Execute | src/deep_research_multi_agent/research_multi_agent_supervisor.py:194-259 | A successful execution gives one tool message per reflection or research call and one raw-notes entry per research call. |
| Supervisor.EndCommand | src/deep_research_multi_agent/research_multi_agent_supervisor.py:266-273 | The terminal command goes to the end with only the notes taken from the transcript and the brief, or the empty brief when absent. |
| Supervisor.ToolsRound | src/deep_research_multi_agent/research_multi_agent_supervisor.py:127-284 | The exit test forces the end. An ending update writes exactly the notes and the brief. Otherwise the update goes back to the agent with the tool messages and the raw notes. |
| Supervisor.RunReflections | src/deep_research_multi_agent/research_multi_agent_supervisor.py:210-219 | The loop raises exactly when some reflection does. Otherwise it returns one tool message per reflection call, in order. |
| Supervisor.SupervisorToolsNode | src/deep_research_multi_agent/research_multi_agent_supervisor.py:171-281 | The tools node returns exactly the specified round. |
| Supervisor.GatherResearch | src/deep_research_multi_agent/research_multi_agent_supervisor.py:225-236 | All research runs succeed if and only if topics and gathering do. The i-th result is the i-th call's run. |
| Supervisor.ExecuteSucceeds | src/deep_research_multi_agent/research_multi_agent_supervisor.py:197-262 | Execution succeeds if and only if every reflection and every research run succeeds. |
| Supervisor.ExecuteAnswers | src/deep_research_multi_agent/research_multi_agent_supervisor.py:200-258 | A successful execution answers each reflection call, then each research call, in request order, with name and id. Calls of other names get no answer. There is one raw-notes entry per research call. |
| Supervisor.ExecuteValue | src/deep_research_multi_agent/research_multi_agent_supervisor.py:197-258 | A successful execution had its reflections, topics and gathering all succeed. Its messages are the reflection answers followed by the research answers, with one raw-notes entry per result. |
| Supervisor.ReflectionAnswers | src/deep_research_multi_agent/research_multi_agent_supervisor.py:210-219 | Each reflection call gets one answer, in order, holding its invocation result, the tool name and the call id. |
| Supervisor.ResearchAnswers | src/deep_research_multi_agent/research_multi_agent_supervisor.py:225-258 | Each research call gets one answer, in order, holding its worker's content, the schema name and the call id. Each also gets the raw-notes entry of that worker's result. |
| Supervisor.RoundShape | src/deep_research_multi_agent/research_multi_agent_supervisor.py:274-281 | A continuing round passed the exit test and returns exactly the execution's messages and raw notes. |
| Supervisor.RoundEnds | src/deep_research_multi_agent/research_multi_agent_supervisor.py:184-193 | A round ends if and only if the cap is reached, there are no tool calls, the research is declared complete, or execution raised. It then returns the terminal command; otherwise it goes back to the decision. |
| Supervisor.RoundChannels | src/deep_research_multi_agent/research_multi_agent_supervisor.py:266-281 | Applied, a terminal round adds no supervisor messages or raw notes. A continuing round appends them and leaves the notes alone. |
| Supervisor.TerminalRunsNothing | src/deep_research_multi_agent/research_multi_agent_supervisor.py:191-193 | When the exit test holds, the outcome does not depend on the tools or workers at all. |
| Supervisor.ResearchNotCapped | src/deep_research_multi_agent/research_multi_agent_supervisor.py:308 | More research calls than the concurrency constant all run, and each gets an answer and a raw-notes entry. |
| Supervisor.ContinuingRoundUpdate | src/deep_research_multi_agent/research_multi_agent_supervisor.py:274-281 | A round that passes the exit test and executes returns to the decision step with exactly the execution's messages and raw notes. |
| Supervisor.ContinuingRound | src/deep_research_multi_agent/research_multi_agent_supervisor.py:312-325 | Each continuing decide-then-tools cycle raises the counter by exactly one and uses up the budget. |
| Supervisor.ReportBack | src/deep_research_multi_agent/research_multi_agent_supervisor.py:275-281 | A report-back update leaves the iteration counter unchanged. |
| Supervisor.Supervise | src/deep_research_multi_agent/research_multi_agent_supervisor.py:312-325 | A supervision asks for at least one decision and always ends having written the notes and the brief. |
| Supervisor.DecisionBound | src/deep_research_multi_agent/research_multi_agent_supervisor.py:121 | From counter k, a supervision asks for at least one and at most 6 − k decisions (one when k ≥ 6), whatever the oracles do. |
| Supervisor.AtMostSixDecisions | src/deep_research_multi_agent/research_multi_agent_supervisor.py:303 | From a fresh counter, the supervisor model is asked for at most six decisions. |
| Supervisor.AsWrittenRunIsFallback | src/deep_research_multi_agent/research_multi_agent_supervisor.py:245 | As compiled, every successful worker run's answer is the fixed error text. |
| Supervisor.CorrectedRunIsSummary | src/deep_research_multi_agent/research_multi_agent_supervisor.py:245 | With the corrected output schema, a successful run's answer is its worker's summary. |
| Supervisor.AsWrittenResearchIsFallback | src/deep_research_multi_agent/research_multi_agent_supervisor.py:243-249 | As compiled, every research answer of a successful round is the fixed error text. |
| Supervisor.CorrectedResearchCarriesSummary | src/deep_research_multi_agent/research_multi_agent_supervisor.py:243-249 | With the corrected schema, every research answer is its worker's summary. |
| Scope.BufferString | src/deep_research_multi_agent/research_agent_scope.py:88 | The rendered text is empty exactly when the conversation is. |
| Scope.BufferEnds | src/deep_research_multi_agent/research_agent_scope.py:88 | The rendered text starts with the first message's role-prefixed line and finishes with the last message's. |
| Scope.BufferHoldsEveryMessage | src/deep_research_multi_agent/research_agent_scope.py:88 | Every message of the conversation appears, with its role, in the buffer the prompts are built from. |
| Scope.Clarify | src/deep_research_multi_agent/research_agent_scope.py:85-104 | The clarifier raises exactly when the conversation is missing. A needed clarification ends the run with one AI message holding the question. Otherwise it goes to brief generation with one AI message holding the verification. |
| Scope.GenerateBrief | src/deep_research_multi_agent/research_agent_scope.py:153-166 | Brief generation sets the brief to the model's and seeds the supervisor with one human message, the brief followed by a full stop. |
| Scope.SeedCarriesBrief | src/deep_research_multi_agent/research_agent_scope.py:165 | The seed message is the brief plus exactly one trailing full stop. |
| Scope.ScopeReadsOnlyMessages | src/deep_research_multi_agent/research_agent_scope.py:85-91 | The clarification and the brief depend on the conversation only. |
| Scope.ScopeWorkflow | src/deep_research_multi_agent/research_agent_scope.py:183-194 | The input is first cut down to its conversation. The run raises exactly when the conversation is missing. When the clarifier asks, the only channel written is the conversation; after a brief the written channels are exactly the conversation, the brief and the supervisor transcript. |
| Scope.ScopeReadsOnlyConversation | src/deep_research_multi_agent/research_agent_scope.py:183 | Two inputs that agree on the conversation give the same outcome, whatever other keys they carry. |
| Scope.ScopeOutcome | src/deep_research_multi_agent/research_agent_scope.py:190-191 | A scoping run appends one AI message. When clarification is needed no brief exists. Otherwise the brief is set and the supervisor transcript is exactly its one seed. |
| Scope.ScopeAsks | src/deep_research_multi_agent/research_agent_scope.py:94-99 | When clarification is needed, the run ends after the clarifier with the question appended and no brief. |
| Scope.ScopeBriefs | src/deep_research_multi_agent/research_agent_scope.py:100-104 | Otherwise the verification is appended, then the brief is stored and the supervisor transcript is exactly the brief's seed message. |
| Scope.ClarifyApplied | src/deep_research_multi_agent/research_agent_scope.py:85-105 | Applied, the clarifier appends its one AI message, the question or the verification, and leaves the supervisor transcript and the brief alone. |
| Scope.BriefApplied | src/deep_research_multi_agent/research_agent_scope.py:153-166 | Applied, brief generation leaves the conversation alone, stores the brief and appends the supervisor's seed. |
| DeepResearch.FindingsText | src/deep_research_multi_agent/deep_research.py:85-86 | No notes give no findings, and a single note is the findings unchanged. |
| DeepResearch.FindingsHoldEveryNote | src/deep_research_multi_agent/deep_research.py:84-86 | Every note appears, unchanged, in the findings given to the writer. |
| DeepResearch.FindingsLength | src/deep_research_multi_agent/deep_research.py:84-86 | The findings are the notes plus one newline between neighbours, and empty when there are no notes. |
| DeepResearch.BriefText | src/deep_research_multi_agent/deep_research.py:89 | A missing brief reads as the empty text, and an unset brief as `None`. |
| DeepResearch.FinalReport | src/deep_research_multi_agent/deep_research.py:84-100 | The report is the writer's reply to one prompt built from the brief and the findings. The announcement is the fixed prefix followed by the report. |
| DeepResearch.ReportReadsOnlyBriefAndNotes | src/deep_research_multi_agent/deep_research.py:84-94 | The report depends on the brief and the notes only. |
| DeepResearch.ReportApplied | src/deep_research_multi_agent/deep_research.py:96-100 | Applied, the report overwrites any earlier one. The conversation gains exactly one message: the prefix, then exactly the report. |
| DeepResearch.DeepResearchWorkflow | src/deep_research_multi_agent/deep_research.py:125-147 | The input is first cut down to its conversation. The run raises exactly when the conversation is missing. The final state has the conversation written, and every written key is a channel of the agent state. A report is written exactly when the brief was generated. |
| DeepResearch.SuperviseAndReport | src/deep_research_multi_agent/deep_research.py:141-143 | After the supervisor and the report writer, the written channels are exactly the briefed ones, the agent-state channels the supervisor returned, the report and the conversation. |
| DeepResearch.PipelineAsks | src/deep_research_multi_agent/deep_research.py:140-143 | When the clarifier asks, the run ends with the question appended and neither a brief nor a report. |
| DeepResearch.PipelineReports | src/deep_research_multi_agent/deep_research.py:140-143 | Otherwise the brief is the briefer's reply to the clarified conversation, and the supervisor transcript is exactly its seed message. The report is the writer's reply over the supervised state, announced last. An unchanged brief reaches the writer. |
| DeepResearch.ReportStep | src/deep_research_multi_agent/deep_research.py:141-143 | After the supervisor, the report is the writer's reply over the supervised state. A brief the supervisor does not write survives to the writer. |

## Left out

- Language models, structured-output models, search tools, the MCP server and its client are oracles (function parameters). Their prompts, and their retries and errors inside a call, are not modelled. The prompt templates and today's date are parameters too.
- The helper that extracts notes from the supervisor transcript, and the reflection tool's implementation, are oracles. `tools/reflection_tool.py` is not part of this model. The notes helper `get_notes_from_tool_calls` is imported from utils.py at research_multi_agent_supervisor.py:33, but utils.py does not define it.
- The library function that renders a conversation as text is modelled with role prefixes Human, AI, System and Tool. Names and other message fields are not rendered.
- The asyncio initialisation lock of the MCP agent node and all concurrency. The parallel worker runs are an order-preserving sequential map, and one failed worker raises the whole gather, as it does in the source.
- Scope.ScopeWorkflow, DeepResearch.SuperviseAndReport, DeepResearch.DeepResearchWorkflow and Channels.Apply: a list channel that no node has written is an absent key, which every read treats as the empty list. The engine instead starts every appending channel (`add_messages`, `operator.add`) as `[]`, so the program's states and graph outputs also hold the unwritten list channels (for the scoping graph's ask path: `supervisor_messages`, `notes` and `raw_notes`) as empty lists. The key sets these members state are the written channels.
- The message reducer is modelled as append. Its replacement of messages with an existing id, and its id assignment, are not modelled.
- The supervisor subgraph's run, when placed into the top-level graph, is an opaque update (`DeepResearch.DeepResearchWorkflow` takes it as `supervise`). The supervisor's own graph is modelled separately by `Supervisor.Supervise`.
- SupervisorStateSchema: `SupervisorState` is imported from state_schemas_research.py (research_multi_agent_supervisor.py:30) but declared nowhere, and `get_notes_from_tool_calls` is imported from utils.py (research_multi_agent_supervisor.py:33), which does not define it. Either import keeps the supervisor module as shipped from being imported. The schema is an assumption built from the keys the supervisor reads and writes: `supervisor_messages` appends, `research_brief` and `research_iterations` overwrite, and `notes` and `raw_notes` concatenate.
- The worker loop's `fuel` stands for the engine's step limit: the step count at which the engine raises is a parameter, not its default.
- The MCP worker graph's run is not composed separately. Its edges (research_agent_mcp.py:440-450) are the same as the plain worker's, and its nodes are modelled one by one.
- Message contents are strings. Non-string content and the string conversion of structured content are not modelled.
- The supervisor's exit test, the worker routes `Researcher.RouteOf` (research_agent.py:119-128, also used for the MCP variant at research_agent_mcp.py:157-166) and the tools steps `Researcher.ToolsStep` (research_agent.py:167) and `McpResearcher.McpToolsStep` (research_agent_mcp.py:361, where `or []` does not guard a missing attribute) read the last message's tool calls. A last message that is not a model reply is treated as having none, where the program would raise `AttributeError`. Through the routes, the tools steps are only reached after a model reply.
- The progress message printed on the exception path, the search tools, the evaluation scripts and the tests.

## Findings

| source | as written | input that shows it | evidently intended | confidence | as-written member | corrected member |
|---|---|---|---|---|---|---|
| src/deep_research_multi_agent/state_schemas_research.py:65 | The worker's output schema declares `ccompressed_research`. The worker writes `compressed_research` (research_agent.py:260), so the compiled worker's output never has that key. The supervisor's read at research_multi_agent_supervisor.py:245 therefore always falls back to the error text. | Any topic on which the worker finishes: the research answer is '연구 보고서를 종합(요약)하는 중 오류가 발생했습니다.' instead of the summary. | The output field is `compressed_research`, so the supervisor receives each worker's summary. | not executed | Supervisor.AsWrittenResearchIsFallback | Supervisor.CorrectedResearchCarriesSummary |
| src/deep_research_multi_agent/research_agent_mcp.py:322 | The MCP condensation writes `condensed_research`, which is not a channel of the worker graph, so the update drops the summary. | Any MCP worker run that reaches condensation: the final state has no summary. | The MCP condensation writes `compressed_research` like the plain worker. | not executed | McpResearcher.McpSummaryDropped | Researcher.CondensationStep |
