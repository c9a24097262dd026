/** Chat messages and tool calls, as the orchestration code sees them. */
module Messages {

  /** A tool call's argument dictionary; every argument this core reads is a string. */
  type Args = map<string, string>

  /** One tool call requested by a model reply: the tool's name, its arguments and a call identifier. */
  datatype ToolCall = ToolCall(name: string, args: Args, id: string)

  datatype Message =
    | HumanMessage(content: string)
    | AIMessage(content: string, toolCalls: seq<ToolCall>)
    | SystemMessage(content: string)
    | ToolMessage(content: string, name: string, toolCallId: string)
  {
    /** The tool calls a message carries; only model replies carry any. */
    function ToolCalls(): seq<ToolCall> {
      if AIMessage? then toolCalls else []
    }

    /** The messages kept by a filter on the tool and AI message types. */
    predicate IsAiOrTool() {
      AIMessage? || ToolMessage?
    }
  }

  /** A chat model's `invoke`: an oracle from a prompt (a message list) to its reply. */
  type ChatModel = seq<Message> -> Message

  /**
   * One tool message per observation, paired with the calls position by position: the i-th observation is
   * tied to the i-th call by that call's name and id, and pairing stops at the shorter list.
   */
  function ToolMessagesFor(observations: seq<string>, calls: seq<ToolCall>): (r: seq<Message>)
    ensures |r| == if |observations| <= |calls| then |observations| else |calls|
    ensures forall i :: 0 <= i < |r| ==>
      r[i].ToolMessage? && r[i].content == observations[i] &&
      r[i].name == calls[i].name && r[i].toolCallId == calls[i].id
  {
    var n := if |observations| <= |calls| then |observations| else |calls|;
    seq(n, i requires 0 <= i < n => ToolMessage(observations[i], calls[i].name, calls[i].id))
  }

  /** Answering one more call extends the answers by one message tied to that call. */
  lemma ToolMessagesForSnoc(observations: seq<string>, calls: seq<ToolCall>, o: string, c: ToolCall)
    requires |observations| == |calls|
    ensures ToolMessagesFor(observations + [o], calls + [c]) == ToolMessagesFor(observations, calls) + [ToolMessage(o, c.name, c.id)]
  {
  }
}
