/**
 * The conversation state of one workflow run: a list of messages that every
 * node extends. A message is the user's question, a model reply that may
 * carry tool calls, or a tool result that answers one call by its id.
 */
module Messages {

  /** Name of the only tool the query generator is allowed to call. */
  const SubmitFinalAnswerName := "SubmitFinalAnswer"

  /** A structured call: tool name, arguments and the id its result must carry. */
  datatype ToolCall = ToolCall(name: string, args: map<string, string>, id: string)

  datatype Message =
    | HumanMessage(content: string)
    | AIMessage(content: string, toolCalls: seq<ToolCall>)
    | ToolMessage(content: string, toolCallId: string)

  /** What a language-model call returns; it always becomes an AIMessage. */
  datatype Reply = Reply(content: string, toolCalls: seq<ToolCall>) {
    function AsMessage(): (m: Message)
      ensures m.AIMessage? && m.content == content && m.toolCalls == toolCalls
    {
      AIMessage(content, toolCalls)
    }
  }

  /** The tool calls a message carries; only model replies have any. */
  function ToolCallsOf(m: Message): seq<ToolCall> {
    if m.AIMessage? then m.toolCalls else []
  }

  /** A message whose `tool_calls` attribute exists and is non-empty. */
  predicate HasToolCalls(m: Message) {
    m.AIMessage? && |m.toolCalls| > 0
  }

  function Last(messages: seq<Message>): Message
    requires |messages| > 0
  {
    messages[|messages| - 1]
  }

  /** `replies` answer `calls` one to one, in order, each carrying its call's id. */
  predicate Answers(calls: seq<ToolCall>, replies: seq<Message>) {
    && |replies| == |calls|
    && forall i :: 0 <= i < |replies| ==>
         replies[i].ToolMessage? && replies[i].toolCallId == calls[i].id
  }

  /** A model reply that ends a run: it calls tools, and only SubmitFinalAnswer. */
  predicate Terminal(m: Message) {
    && HasToolCalls(m)
    && forall c :: c in m.toolCalls ==> c.name == SubmitFinalAnswerName
  }
}
