/**
 * The scoping step of the full pipeline: a clarifier decides whether the user must be asked a question first,
 * and otherwise a brief generator turns the conversation into a research brief that seeds the supervisor.
 */
module Scope {
  import opened Common
  import opened Messages
  import opened Channels
  import opened StateSchemas

  /** The clarifier model's structured answer. */
  datatype Clarification = Clarification(needClarification: bool, question: string, verification: string)

  /** The brief generator model's structured answer. */
  datatype ResearchQuestion = ResearchQuestion(researchBrief: string)

  /** A model bound to a structured output schema. */
  type ClarifierModel = seq<Message> -> Clarification
  type BriefModel = seq<Message> -> ResearchQuestion

  /** A prompt template filled with the rendered conversation and the date. */
  type PromptTemplate = (string, string) -> string

  /** The nodes the clarifier's `Command` can go to. */
  datatype ScopeGoto = ResearchBriefGenerator | End

  datatype ScopeCommand = ScopeCommand(goto: ScopeGoto, update: Dict)

  /** The role prefix `get_buffer_string` writes before each message. */
  function Role(m: Message): string {
    match m
    case HumanMessage(_) => "Human"
    case AIMessage(_, _) => "AI"
    case SystemMessage(_) => "System"
    case ToolMessage(_, _, _) => "Tool"
  }

  /** One message rendered as a line of the conversation buffer. */
  function Line(m: Message): string {
    Role(m) + ": " + m.content
  }

  /** The rendered lines of a conversation, one per message and in order. */
  function Lines(msgs: seq<Message>): (lines: seq<string>)
    ensures |lines| == |msgs|
    ensures forall i :: 0 <= i < |msgs| ==> lines[i] == Line(msgs[i])
  {
    if |msgs| == 0 then [] else [Line(msgs[0])] + Lines(msgs[1..])
  }

  /** `get_buffer_string`: the conversation as role-prefixed lines separated by newlines. */
  function BufferString(msgs: seq<Message>): (buffer: string)
    ensures buffer == "" <==> msgs == []
  {
    Join("\n", Lines(msgs))
  }

  /** The buffer starts with the first message's line and ends with the last message's line. */
  lemma BufferEnds(msgs: seq<Message>)
    requires |msgs| > 0
    ensures var first, last, buffer := Line(msgs[0]), Line(msgs[|msgs| - 1]), BufferString(msgs);
      StartsWith(buffer, first) && EndsWith(buffer, last)
  {
    JoinEnds("\n", Lines(msgs));
  }

  /** A string that contains `a + b + c` contains `a`, `b` and `c` one after the other. */
  lemma ContainsParts(s: string, a: string, b: string, c: string)
    requires exists pre: string, post: string :: s == pre + (a + b + c) + post
    ensures exists pre: string, post: string :: s == pre + a + b + c + post
  {
    var pre: string, post: string :| s == pre + (a + b + c) + post;
    assert s == pre + a + b + c + post;
  }

  /** The buffer holds every message of the conversation, role and content, and nothing is dropped. */
  lemma BufferHoldsEveryMessage(msgs: seq<Message>, i: nat)
    requires i < |msgs|
    ensures exists pre: string, post: string :: BufferString(msgs) == pre + Role(msgs[i]) + ": " + msgs[i].content + post
  {
    JoinContains("\n", Lines(msgs), i);
    ContainsParts(BufferString(msgs), Role(msgs[i]), ": ", msgs[i].content);
  }

  /**
   * `UserIntentClarificationNode.__call__`: the model sees one human message, the clarification prompt over the whole
   * conversation; a needed clarification ends the run with the question, otherwise the verification text is
   * appended and the brief generator runs next. The conversation is read by indexing the state with the `messages` key, which raises when it is absent.
   */
  function Clarify(state: Dict, model: ClarifierModel, prompt: PromptTemplate, date: string): (r: Outcome<ScopeCommand>)
    ensures r.Ok? <==> "messages" in state && state["messages"].Msgs?
    ensures r.Ok? ==>
      var answer := model([HumanMessage(prompt(BufferString(state["messages"].msgs), date))]);
      r.value.update.Keys == {"messages"} &&
      (answer.needClarification ==>
        r.value.goto == End && r.value.update["messages"] == Msgs([AIMessage(answer.question, [])])) &&
      (!answer.needClarification ==>
        r.value.goto == ResearchBriefGenerator && r.value.update["messages"] == Msgs([AIMessage(answer.verification, [])]))
  {
    if "messages" !in state || !state["messages"].Msgs? then Raised
    else
      var answer := model([HumanMessage(prompt(BufferString(state["messages"].msgs), date))]);
      if answer.needClarification then Ok(ScopeCommand(End, map["messages" := Msgs([AIMessage(answer.question, [])])]))
      else Ok(ScopeCommand(ResearchBriefGenerator, map["messages" := Msgs([AIMessage(answer.verification, [])])]))
  }

  /**
   * `ResearchBriefGenerationNode.__call__`: the model sees the brief prompt over the whole conversation (an unset
   * conversation counts as empty); the update stores the brief and gives the supervisor its first message, the
   * brief followed by a full stop.
   */
  function GenerateBrief(state: Dict, model: BriefModel, prompt: PromptTemplate, date: string): (u: Dict)
    ensures var brief := model([HumanMessage(prompt(BufferString(GetMsgs(state, "messages")), date))]).researchBrief;
      u.Keys == {"research_brief", "supervisor_messages"} &&
      u["research_brief"] == Str(brief) &&
      u["supervisor_messages"] == Msgs([HumanMessage(brief + ".")])
  {
    var brief := model([HumanMessage(prompt(BufferString(GetMsgs(state, "messages")), date))]).researchBrief;
    map["research_brief" := Str(brief), "supervisor_messages" := Msgs([HumanMessage(brief + ".")])]
  }

  /** The supervisor's seed message carries the brief and one trailing full stop, nothing else. */
  lemma SeedCarriesBrief(state: Dict, model: BriefModel, prompt: PromptTemplate, date: string)
    ensures var u := GenerateBrief(state, model, prompt, date);
      var seed := u["supervisor_messages"].msgs[0].content;
      |seed| == |u["research_brief"].s| + 1 && seed[..|seed| - 1] == u["research_brief"].s && seed[|seed| - 1] == '.'
  {
    var u := GenerateBrief(state, model, prompt, date);
    var brief := u["research_brief"].s;
    assert (brief + ".")[..|brief|] == brief;
  }

  /** The models see only the conversation: states with the same messages get the same clarification and the same brief. */
  lemma ScopeReadsOnlyMessages(s1: Dict, s2: Dict, clarifier: ClarifierModel, briefer: BriefModel,
                               clarifyPrompt: PromptTemplate, briefPrompt: PromptTemplate, date: string)
    requires GetMsgs(s1, "messages") == GetMsgs(s2, "messages")
    requires HasMsgs(s1, "messages") && HasMsgs(s2, "messages")
    ensures Clarify(s1, clarifier, clarifyPrompt, date) == Clarify(s2, clarifier, clarifyPrompt, date)
    ensures GenerateBrief(s1, briefer, briefPrompt, date) == GenerateBrief(s2, briefer, briefPrompt, date)
  {
  }

  /** The outcome of the scoping graph: its final state, and whether the brief generator ran. */
  datatype Scoping = Scoping(final: Dict, briefGenerated: bool)

  /**
   * The compiled scoping graph: the input is filtered to `AgentInputState`, then the clarifier is the entry node;
   * when it does not end the run, the brief generator runs and the graph ends after it.
   */
  function ScopeWorkflow(input: Dict, clarifier: ClarifierModel, briefer: BriefModel,
                         clarifyPrompt: PromptTemplate, briefPrompt: PromptTemplate, date: string): (r: Outcome<Scoping>)
    ensures r.Ok? <==> "messages" in input && input["messages"].Msgs?
    ensures r.Ok? && !r.value.briefGenerated ==> r.value.final.Keys == {"messages"}
    ensures r.Ok? && r.value.briefGenerated ==>
      r.value.final.Keys == {"messages", "research_brief", "supervisor_messages"}
  {
    var start := AgentInput(input);
    match Clarify(start, clarifier, clarifyPrompt, date)
    case Raised => Raised
    case Ok(cmd) =>
      assert start.Keys == {"messages"};
      assert cmd.update.Keys * AgentStateSchema.Keys == {"messages"};
      var clarified := Apply(AgentStateSchema, start, cmd.update);
      assert clarified.Keys == {"messages"};
      if cmd.goto == End then Ok(Scoping(clarified, false))
      else
        var brief := GenerateBrief(clarified, briefer, briefPrompt, date);
        assert brief.Keys * AgentStateSchema.Keys == {"research_brief", "supervisor_messages"};
        Ok(Scoping(Apply(AgentStateSchema, clarified, brief), true))
  }

  /**
   * A scoping run appends exactly one model message to the conversation: the question when clarification is needed,
   * and then no brief exists; otherwise the verification text, and then the brief is set and the supervisor transcript
   * is its one seed message. Whatever else the input holds is filtered out.
   */
  lemma ScopeOutcome(input: Dict, clarifier: ClarifierModel, briefer: BriefModel,
                     clarifyPrompt: PromptTemplate, briefPrompt: PromptTemplate, date: string)
    requires HasMsgs(input, "messages")
    ensures var r := ScopeWorkflow(input, clarifier, briefer, clarifyPrompt, briefPrompt, date);
      var answer := clarifier([HumanMessage(clarifyPrompt(BufferString(GetMsgs(input, "messages")), date))]);
      r.Ok? && (r.value.briefGenerated <==> !answer.needClarification) &&
      (answer.needClarification ==>
        GetMsgs(r.value.final, "messages") == GetMsgs(input, "messages") + [AIMessage(answer.question, [])] &&
        "research_brief" !in r.value.final) &&
      (!answer.needClarification ==>
        var clarified := GetMsgs(input, "messages") + [AIMessage(answer.verification, [])];
        var brief := briefer([HumanMessage(briefPrompt(BufferString(clarified), date))]).researchBrief;
        GetMsgs(r.value.final, "messages") == clarified &&
        r.value.final["research_brief"] == Str(brief) &&
        GetMsgs(r.value.final, "supervisor_messages") == [HumanMessage(brief + ".")])
  {
    var answer := clarifier([HumanMessage(clarifyPrompt(BufferString(GetMsgs(input, "messages")), date))]);
    if answer.needClarification {
      ScopeAsks(input, clarifier, briefer, clarifyPrompt, briefPrompt, date);
    } else {
      ScopeBriefs(input, clarifier, briefer, clarifyPrompt, briefPrompt, date);
    }
  }

  /**
   * The input filter makes the run depend on the conversation alone: two inputs that agree on `messages` give the
   * same outcome, whatever brief, report or other keys either carries.
   */
  lemma ScopeReadsOnlyConversation(input1: Dict, input2: Dict, clarifier: ClarifierModel, briefer: BriefModel,
                                   clarifyPrompt: PromptTemplate, briefPrompt: PromptTemplate, date: string)
    requires "messages" in input1 <==> "messages" in input2
    requires "messages" in input1 ==> input1["messages"] == input2["messages"]
    ensures ScopeWorkflow(input1, clarifier, briefer, clarifyPrompt, briefPrompt, date)
         == ScopeWorkflow(input2, clarifier, briefer, clarifyPrompt, briefPrompt, date)
  {
    assert AgentInput(input1) == AgentInput(input2);
  }

  /** When clarification is needed, the run ends after the clarifier with the question appended and no brief. */
  lemma ScopeAsks(input: Dict, clarifier: ClarifierModel, briefer: BriefModel,
                  clarifyPrompt: PromptTemplate, briefPrompt: PromptTemplate, date: string)
    requires HasMsgs(input, "messages")
    requires clarifier([HumanMessage(clarifyPrompt(BufferString(GetMsgs(input, "messages")), date))]).needClarification
    ensures var r := ScopeWorkflow(input, clarifier, briefer, clarifyPrompt, briefPrompt, date);
      var answer := clarifier([HumanMessage(clarifyPrompt(BufferString(GetMsgs(input, "messages")), date))]);
      r.Ok? && !r.value.briefGenerated &&
      GetMsgs(r.value.final, "messages") == GetMsgs(input, "messages") + [AIMessage(answer.question, [])] &&
      "research_brief" !in r.value.final
  {
    var start := AgentInput(input);
    assert GetMsgs(start, "messages") == GetMsgs(input, "messages");
    ClarifyApplied(start, clarifier, clarifyPrompt, date);
  }

  /** Otherwise the verification text is appended, then the brief is stored and is the supervisor transcript's only message. */
  lemma ScopeBriefs(input: Dict, clarifier: ClarifierModel, briefer: BriefModel,
                    clarifyPrompt: PromptTemplate, briefPrompt: PromptTemplate, date: string)
    requires HasMsgs(input, "messages")
    requires !clarifier([HumanMessage(clarifyPrompt(BufferString(GetMsgs(input, "messages")), date))]).needClarification
    ensures var r := ScopeWorkflow(input, clarifier, briefer, clarifyPrompt, briefPrompt, date);
      var answer := clarifier([HumanMessage(clarifyPrompt(BufferString(GetMsgs(input, "messages")), date))]);
      var clarified := GetMsgs(input, "messages") + [AIMessage(answer.verification, [])];
      var brief := briefer([HumanMessage(briefPrompt(BufferString(clarified), date))]).researchBrief;
      r.Ok? && r.value.briefGenerated &&
      GetMsgs(r.value.final, "messages") == clarified &&
      r.value.final["research_brief"] == Str(brief) &&
      GetMsgs(r.value.final, "supervisor_messages") == [HumanMessage(brief + ".")]
  {
    var start := AgentInput(input);
    assert GetMsgs(start, "messages") == GetMsgs(input, "messages") && GetMsgs(start, "supervisor_messages") == [];
    ClarifyApplied(start, clarifier, clarifyPrompt, date);
    var clarified := Apply(AgentStateSchema, start, Clarify(start, clarifier, clarifyPrompt, date).value.update);
    BriefApplied(clarified, briefer, briefPrompt, date);
    assert ScopeWorkflow(input, clarifier, briefer, clarifyPrompt, briefPrompt, date)
      == Ok(Scoping(Apply(AgentStateSchema, clarified, GenerateBrief(clarified, briefer, briefPrompt, date)), true));
  }

  /**
   * Applied to the state, the clarifier's update appends its one model message to the conversation and touches
   * nothing else.
   */
  lemma ClarifyApplied(input: Dict, clarifier: ClarifierModel, clarifyPrompt: PromptTemplate, date: string)
    requires HasMsgs(input, "messages")
    ensures var r := Clarify(input, clarifier, clarifyPrompt, date);
      var answer := clarifier([HumanMessage(clarifyPrompt(BufferString(GetMsgs(input, "messages")), date))]);
      r.Ok? &&
      var clarified := Apply(AgentStateSchema, input, r.value.update);
      GetMsgs(clarified, "messages") ==
        GetMsgs(input, "messages") + [AIMessage(if answer.needClarification then answer.question else answer.verification, [])] &&
      GetMsgs(clarified, "supervisor_messages") == GetMsgs(input, "supervisor_messages") &&
      (HoldsMsgs(input, "supervisor_messages") ==> HoldsMsgs(clarified, "supervisor_messages")) &&
      ("research_brief" in clarified <==> "research_brief" in input)
  {
    var cmd := Clarify(input, clarifier, clarifyPrompt, date).value;
    ApplyAppendsMessages(AgentStateSchema, input, cmd.update, "messages", cmd.update["messages"].msgs);
    ApplyKeepsUntouched(AgentStateSchema, input, cmd.update, "supervisor_messages");
    ApplyKeepsUntouched(AgentStateSchema, input, cmd.update, "research_brief");
  }

  /** Applied to the state, the brief generator's update stores the brief and appends the supervisor's seed message. */
  lemma BriefApplied(state: Dict, briefer: BriefModel, briefPrompt: PromptTemplate, date: string)
    requires HoldsMsgs(state, "supervisor_messages")
    ensures var brief := briefer([HumanMessage(briefPrompt(BufferString(GetMsgs(state, "messages")), date))]).researchBrief;
      var final := Apply(AgentStateSchema, state, GenerateBrief(state, briefer, briefPrompt, date));
      GetMsgs(final, "messages") == GetMsgs(state, "messages") &&
      "research_brief" in final && final["research_brief"] == Str(brief) &&
      GetMsgs(final, "supervisor_messages") == GetMsgs(state, "supervisor_messages") + [HumanMessage(brief + ".")]
  {
    var u := GenerateBrief(state, briefer, briefPrompt, date);
    ApplyKeepsUntouched(AgentStateSchema, state, u, "messages");
    ApplyAppendsMessages(AgentStateSchema, state, u, "supervisor_messages", u["supervisor_messages"].msgs);
  }


}
