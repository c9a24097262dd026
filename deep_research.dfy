/**
 * The full pipeline: scoping, the supervisor subgraph, and the final report writer, run in that order over the
 * top-level agent state.
 */
module DeepResearch {
  import opened Common
  import opened Messages
  import opened Channels
  import opened StateSchemas
  import opened Scope

  /** The text put before the report in the message that announces it. */
  const ReportDone: string := "최종 보고서가 완성되었습니다:\n"

  /** The report prompt template, filled with the brief, the findings and the date. */
  type ReportTemplate = (string, string, string) -> string

  /** The findings handed to the writer: the notes joined with newlines, none when the notes were never written. */
  function FindingsText(state: Dict): (text: string)
    ensures GetStrs(state, "notes") == [] ==> text == ""
    ensures |GetStrs(state, "notes")| == 1 ==> text == GetStrs(state, "notes")[0]
  {
    Join("\n", GetStrs(state, "notes"))
  }

  /** Every note occurs whole in the findings. */
  lemma FindingsHoldEveryNote(state: Dict, i: nat)
    requires i < |GetStrs(state, "notes")|
    ensures exists pre: string, post: string :: FindingsText(state) == pre + GetStrs(state, "notes")[i] + post
  {
    JoinContains("\n", GetStrs(state, "notes"), i);
  }

  /** The findings hold nothing but the notes and one separator between neighbours; no notes give no findings. */
  lemma FindingsLength(state: Dict)
    ensures |GetStrs(state, "notes")| > 0 ==>
      |FindingsText(state)| == TotalLength(GetStrs(state, "notes")) + (|GetStrs(state, "notes")| - 1)
    ensures GetStrs(state, "notes") == [] ==> FindingsText(state) == ""
  {
    if |GetStrs(state, "notes")| > 0 {
      JoinLength("\n", GetStrs(state, "notes"));
    }
  }

  /** The brief as the report prompt renders it: '' when unset, `None` when set to nothing. */
  function BriefText(state: Dict): (text: string)
    ensures "research_brief" !in state ==> text == ""
    ensures "research_brief" in state && state["research_brief"].Str? ==> text == state["research_brief"].s
    ensures "research_brief" in state && state["research_brief"].Null? ==> text == "None"
  {
    if "research_brief" !in state then ""
    else match state["research_brief"]
      case Str(s) => s
      case Null => "None"
      case _ => ""
  }

  /**
   * `FinalReportGeneratorNode.__call__`: the writer sees one human message, the report prompt over the brief and
   * the findings; the update stores the writer's content as the report and announces it in one more message.
   * The node returns that announcement as a bare string; the message reducer turns a string into a human message,
   * which is why it is a `HumanMessage` here.
   */
  function FinalReport(state: Dict, writer: ChatModel, template: ReportTemplate, date: string): (u: Dict)
    ensures var content := writer([HumanMessage(template(BriefText(state), FindingsText(state), date))]).content;
      u.Keys == {"final_report", "messages"} &&
      u["final_report"] == Str(content) &&
      u["messages"] == Msgs([HumanMessage(ReportDone + content)])
  {
    var report := writer([HumanMessage(template(BriefText(state), FindingsText(state), date))]);
    map["final_report" := Str(report.content), "messages" := Msgs([HumanMessage(ReportDone + report.content)])]
  }

  /**
   * The writer sees only the brief and the notes: states that agree on those get the same report, whatever else
   * they hold (the supervisor transcript, the raw notes, the conversation).
   */
  lemma ReportReadsOnlyBriefAndNotes(s1: Dict, s2: Dict, writer: ChatModel, template: ReportTemplate, date: string)
    requires BriefText(s1) == BriefText(s2) && GetStrs(s1, "notes") == GetStrs(s2, "notes")
    ensures FinalReport(s1, writer, template, date) == FinalReport(s2, writer, template, date)
  {
  }

  /**
   * Applied to the agent state, the report overwrites any earlier report, and the conversation grows by one
   * message: the fixed announcement followed by exactly the report.
   */
  lemma ReportApplied(state: Dict, writer: ChatModel, template: ReportTemplate, date: string)
    requires HoldsMsgs(state, "messages")
    ensures var u := FinalReport(state, writer, template, date);
      var after := Apply(AgentStateSchema, state, u);
      var report := u["final_report"].s;
      after["final_report"] == Str(report) &&
      GetMsgs(after, "messages") == GetMsgs(state, "messages") + [HumanMessage(ReportDone + report)] &&
      var announced := GetMsgs(after, "messages")[|GetMsgs(state, "messages")|].content;
      |announced| == |ReportDone| + |report| && announced[..|ReportDone|] == ReportDone && announced[|ReportDone|..] == report
  {
    var u := FinalReport(state, writer, template, date);
    ApplyAppendsMessages(AgentStateSchema, state, u, "messages", u["messages"].msgs);
    var report := u["final_report"].s;
    assert (ReportDone + report)[..|ReportDone|] == ReportDone;
    assert (ReportDone + report)[|ReportDone|..] == report;
  }

  /**
   * The compiled top-level graph. Its input filter to `AgentInputState`, its first two nodes and the clarifier's
   * conditional end are those of the scoping graph; when the brief was generated, the supervisor subgraph (whose output `supervise` gives as an update) runs
   * on the briefed state, then the report writer, then the graph ends.
   */
  function DeepResearchWorkflow(input: Dict, clarifier: ClarifierModel, briefer: BriefModel,
                                clarifyPrompt: PromptTemplate, briefPrompt: PromptTemplate,
                                supervise: Dict -> Dict, writer: ChatModel, template: ReportTemplate, date: string): (r: Outcome<Dict>)
    ensures r.Ok? <==> "messages" in input && input["messages"].Msgs?
    ensures r.Ok? ==> "messages" in r.value && r.value.Keys <= AgentStateSchema.Keys
    ensures r.Ok? ==>
      (ScopeWorkflow(input, clarifier, briefer, clarifyPrompt, briefPrompt, date).value.briefGenerated <==> "final_report" in r.value)
  {
    match ScopeWorkflow(input, clarifier, briefer, clarifyPrompt, briefPrompt, date)
    case Raised => Raised
    case Ok(scoping) =>
      if !scoping.briefGenerated then
        assert scoping.final.Keys == {"messages"};
        Ok(scoping.final)
      else
        assert scoping.final.Keys <= AgentStateSchema.Keys;
        Ok(SuperviseAndReport(scoping.final, supervise, writer, template, date))
  }

  /**
   * The last two edges of the top-level graph: the supervisor subgraph's output is applied to the briefed state,
   * then the report writer's update. The report and the conversation are always written; every other key comes
   * from the briefed state or from a channel of the agent state that the supervisor returned.
   */
  function SuperviseAndReport(briefed: Dict, supervise: Dict -> Dict, writer: ChatModel, template: ReportTemplate, date: string): (r: Dict)
    ensures r.Keys == briefed.Keys + (supervise(briefed).Keys * AgentStateSchema.Keys) + {"final_report", "messages"}
  {
    var supervised := Apply(AgentStateSchema, briefed, supervise(briefed));
    var report := FinalReport(supervised, writer, template, date);
    assert report.Keys * AgentStateSchema.Keys == {"final_report", "messages"};
    Apply(AgentStateSchema, supervised, report)
  }

  /**
   * When the clarifier asks its question, the run ends there: the conversation gains the question, and no brief and
   * no report are written.
   */
  lemma PipelineAsks(input: Dict, clarifier: ClarifierModel, briefer: BriefModel,
                     clarifyPrompt: PromptTemplate, briefPrompt: PromptTemplate,
                     supervise: Dict -> Dict, writer: ChatModel, template: ReportTemplate, date: string)
    requires HasMsgs(input, "messages")
    requires clarifier([HumanMessage(clarifyPrompt(BufferString(GetMsgs(input, "messages")), date))]).needClarification
    ensures var r := DeepResearchWorkflow(input, clarifier, briefer, clarifyPrompt, briefPrompt, supervise, writer, template, date);
      var answer := clarifier([HumanMessage(clarifyPrompt(BufferString(GetMsgs(input, "messages")), date))]);
      r.Ok? && "final_report" !in r.value && "research_brief" !in r.value &&
      GetMsgs(r.value, "messages") == GetMsgs(input, "messages") + [AIMessage(answer.question, [])]
  {
    ScopeAsks(input, clarifier, briefer, clarifyPrompt, briefPrompt, date);
  }

  /**
   * Otherwise the data flows through every node: the brief is the brief generator's reply to the clarified
   * conversation and seeds the supervisor transcript; the supervisor runs on that briefed state; and the report is
   * the writer's reply to the template over the supervised state's brief and notes, announced as the last message.
   * When the supervisor leaves the brief as it found it, the writer sees exactly the generated brief.
   */
  lemma PipelineReports(input: Dict, clarifier: ClarifierModel, briefer: BriefModel,
                        clarifyPrompt: PromptTemplate, briefPrompt: PromptTemplate,
                        supervise: Dict -> Dict, writer: ChatModel, template: ReportTemplate, date: string)
    requires HasMsgs(input, "messages")
    requires !clarifier([HumanMessage(clarifyPrompt(BufferString(GetMsgs(input, "messages")), date))]).needClarification
    ensures var r := DeepResearchWorkflow(input, clarifier, briefer, clarifyPrompt, briefPrompt, supervise, writer, template, date);
      var answer := clarifier([HumanMessage(clarifyPrompt(BufferString(GetMsgs(input, "messages")), date))]);
      var clarified := GetMsgs(input, "messages") + [AIMessage(answer.verification, [])];
      var brief := briefer([HumanMessage(briefPrompt(BufferString(clarified), date))]).researchBrief;
      var scoping := ScopeWorkflow(input, clarifier, briefer, clarifyPrompt, briefPrompt, date);
      scoping.Ok? && r.Ok? &&
      var briefed := scoping.value.final;
      var supervised := Apply(AgentStateSchema, briefed, supervise(briefed));
      var report := writer([HumanMessage(template(BriefText(supervised), FindingsText(supervised), date))]).content;
      briefed["research_brief"] == Str(brief) &&
      GetMsgs(briefed, "supervisor_messages") == [HumanMessage(brief + ".")] &&
      r.value["final_report"] == Str(report) &&
      (HoldsMsgs(supervised, "messages") ==>
        GetMsgs(r.value, "messages") == GetMsgs(supervised, "messages") + [HumanMessage(ReportDone + report)]) &&
      ("research_brief" !in supervise(briefed) || supervise(briefed)["research_brief"] == Str(brief) ==>
        BriefText(supervised) == brief)
  {
    var answer := clarifier([HumanMessage(clarifyPrompt(BufferString(GetMsgs(input, "messages")), date))]);
    var brief := briefer([HumanMessage(briefPrompt(BufferString(GetMsgs(input, "messages") + [AIMessage(answer.verification, [])]), date))]).researchBrief;
    ScopeBriefs(input, clarifier, briefer, clarifyPrompt, briefPrompt, date);
    var scoping := ScopeWorkflow(input, clarifier, briefer, clarifyPrompt, briefPrompt, date);
    var briefed := scoping.value.final;
    var supervised := Apply(AgentStateSchema, briefed, supervise(briefed));
    assert scoping.value.briefGenerated;
    assert DeepResearchWorkflow(input, clarifier, briefer, clarifyPrompt, briefPrompt, supervise, writer, template, date)
      == Ok(SuperviseAndReport(briefed, supervise, writer, template, date));
    ReportStep(briefed, brief, supervise, writer, template, date);
  }

  /**
   * The supervisor and report steps from a state briefed with `brief`: the report is the writer's reply over the
   * supervised state, announced last, and a brief the supervisor leaves as it is reaches the writer unchanged.
   */
  lemma ReportStep(briefed: Dict, brief: string, supervise: Dict -> Dict, writer: ChatModel, template: ReportTemplate, date: string)
    requires "research_brief" in briefed && briefed["research_brief"] == Str(brief)
    ensures var supervised := Apply(AgentStateSchema, briefed, supervise(briefed));
      var report := writer([HumanMessage(template(BriefText(supervised), FindingsText(supervised), date))]).content;
      var reported := SuperviseAndReport(briefed, supervise, writer, template, date);
      reported["final_report"] == Str(report) &&
      (HoldsMsgs(supervised, "messages") ==>
        GetMsgs(reported, "messages") == GetMsgs(supervised, "messages") + [HumanMessage(ReportDone + report)]) &&
      ("research_brief" !in supervise(briefed) || supervise(briefed)["research_brief"] == Str(brief) ==>
        BriefText(supervised) == brief)
  {
    var supervised := Apply(AgentStateSchema, briefed, supervise(briefed));
    if "research_brief" !in supervise(briefed) {
      ApplyKeepsUntouched(AgentStateSchema, briefed, supervise(briefed), "research_brief");
    }
    if HoldsMsgs(supervised, "messages") {
      ReportApplied(supervised, writer, template, date);
    }
  }
}
