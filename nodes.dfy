/**
 * What the deterministic nodes append to the conversation: the seeded
 * list-tables call, the error replies of a failed tool node, the replies of a
 * tool node that ran, and the query generator's wrong-tool replies.
 */
module Nodes {
  import opened Wrappers
  import opened Text
  import opened Messages
  import Graph

  const ListTablesToolName := "sql_db_list_tables"
  const FirstCallId := "tool_abcd123"

  /**
   * `first_tool_call`: a model message with no text and one call of the
   * list-tables tool, with no arguments and a fixed id.
   */
  function FirstToolCall(): (out: seq<Message>)
    ensures |out| == 1 && out[0].AIMessage? && out[0].content == ""
    ensures out[0].toolCalls == [ToolCall(ListTablesToolName, map[], FirstCallId)]
    ensures HasToolCalls(out[0]) && !Terminal(out[0])
  {
    [AIMessage("", [ToolCall(ListTablesToolName, map[], FirstCallId)])]
  }

  const ToolErrorSuffix := "\n please fix your mistakes."

  /** Text of a tool-node failure reply around the exception's `repr`. */
  function ToolErrorContent(errorRepr: string): (text: string)
    ensures StartsWith(text, "Error: ") && StartsWith(text, Graph.ErrorPrefix)
    ensures EndsWith(text, ToolErrorSuffix)
    ensures Contains(text, errorRepr)
  {
    var text := "Error: " + errorRepr + ToolErrorSuffix;
    PrefixOfConcat("Error: ", errorRepr + ToolErrorSuffix);
    assert "Error: " + errorRepr + ToolErrorSuffix == "Error: " + (errorRepr + ToolErrorSuffix);
    PrefixOfConcat(Graph.ErrorPrefix, " " + errorRepr + ToolErrorSuffix);
    assert "Error: " + errorRepr + ToolErrorSuffix == Graph.ErrorPrefix + (" " + errorRepr + ToolErrorSuffix);
    SuffixOfConcat("Error: " + errorRepr, ToolErrorSuffix);
    ContainsMiddle("Error: ", errorRepr, ToolErrorSuffix);
    text
  }

  /**
   * `handle_tool_error`: one error reply per call of the last message, in
   * order, each carrying its call's id and the failure's text.
   */
  function HandleToolError(messages: seq<Message>, errorRepr: string): (out: seq<Message>)
    requires |messages| > 0 && Last(messages).AIMessage?
    ensures Answers(Last(messages).toolCalls, out)
    ensures forall i :: 0 <= i < |out| ==>
      && StartsWith(out[i].content, "Error: ")
      && EndsWith(out[i].content, ToolErrorSuffix)
      && Contains(out[i].content, errorRepr)
  {
    var calls := Last(messages).toolCalls;
    seq(|calls|, i requires 0 <= i < |calls| => ToolMessage(ToolErrorContent(errorRepr), calls[i].id))
  }

  /**
   * A tool node with its fallback: when the tools raise, the error handler's
   * replies; otherwise one reply per call of the last message with that
   * call's output. Either way every pending call is answered exactly once.
   */
  function ToolNodeReplies(messages: seq<Message>, tool: ToolCall -> string, raised: Option<string>)
    : (out: seq<Message>)
    requires |messages| > 0 && Last(messages).AIMessage?
    ensures Answers(Last(messages).toolCalls, out)
    ensures raised.None? ==> forall i :: 0 <= i < |out| ==>
      out[i].content == tool(Last(messages).toolCalls[i])
    ensures raised.Some? ==> forall i :: 0 <= i < |out| ==>
      StartsWith(out[i].content, Graph.ErrorPrefix)
  {
    var calls := Last(messages).toolCalls;
    match raised
    case Some(e) => HandleToolError(messages, e)
    case None => seq(|calls|, i requires 0 <= i < |calls| => ToolMessage(tool(calls[i]), calls[i].id))
  }

  const WrongToolLead := "Error: The wrong tool was called: "
  const WrongToolTail :=
    ". Please fix your mistakes. Remember to only call SubmitFinalAnswer to submit the final answer. Generated queries should be outputted WITHOUT a tool call."

  /** Text of the reply to a call of any tool other than SubmitFinalAnswer. */
  function WrongToolContent(name: string): (text: string)
    ensures StartsWith(text, Graph.ErrorPrefix)
    ensures Contains(text, name)
  {
    var text := WrongToolLead + name + WrongToolTail;
    PrefixOfConcat(Graph.ErrorPrefix, WrongToolLead[|Graph.ErrorPrefix|..] + name + WrongToolTail);
    assert text == Graph.ErrorPrefix + (WrongToolLead[|Graph.ErrorPrefix|..] + name + WrongToolTail);
    ContainsMiddle(WrongToolLead, name, WrongToolTail);
    text
  }

  /** The calls the generator was not allowed to make, in call order. */
  function WrongCalls(calls: seq<ToolCall>): seq<ToolCall> {
    if |calls| == 0 then []
    else if calls[0].name != SubmitFinalAnswerName then [calls[0]] + WrongCalls(calls[1..])
    else WrongCalls(calls[1..])
  }

  /** The replies `query_gen_node` adds: one error per wrong call, in order. */
  function WrongToolReplies(calls: seq<ToolCall>): (out: seq<Message>)
    ensures Answers(WrongCalls(calls), out)
    ensures forall i :: 0 <= i < |out| ==>
      out[i].content == WrongToolContent(WrongCalls(calls)[i].name)
  {
    var wrong := WrongCalls(calls);
    seq(|wrong|, i requires 0 <= i < |wrong| => ToolMessage(WrongToolContent(wrong[i].name), wrong[i].id))
  }

  /** Appending a call adds its wrong-tool reply, if any, at the end. */
  lemma {:induction false} WrongCallsSnoc(calls: seq<ToolCall>, c: ToolCall)
    ensures WrongCalls(calls + [c]) ==
      WrongCalls(calls) + (if c.name != SubmitFinalAnswerName then [c] else [])
  {
    if |calls| > 0 {
      assert (calls + [c])[1..] == calls[1..] + [c];
      WrongCallsSnoc(calls[1..], c);
    } else {
      assert calls + [c] == [c];
    }
  }

  /**
   * Exactly the calls not named SubmitFinalAnswer are wrong: each such call
   * occurs in the result as often as in the input, no submit call occurs,
   * and nothing else does.
   */
  lemma {:induction false} WrongCallsExactlyOnce(calls: seq<ToolCall>)
    ensures multiset(WrongCalls(calls)) <= multiset(calls)
    ensures forall c: ToolCall :: c.name != SubmitFinalAnswerName ==>
      multiset(WrongCalls(calls))[c] == multiset(calls)[c]
    ensures forall c :: c in WrongCalls(calls) ==> c.name != SubmitFinalAnswerName
  {
    if |calls| > 0 {
      WrongCallsExactlyOnce(calls[1..]);
      assert calls == [calls[0]] + calls[1..];
      assert multiset(calls) == multiset{calls[0]} + multiset(calls[1..]);
    }
  }

  /** No wrong call is left exactly when every call is a submit call. */
  lemma {:induction false} NoWrongCalls(calls: seq<ToolCall>)
    ensures WrongCalls(calls) == [] <==> forall c :: c in calls ==> c.name == SubmitFinalAnswerName
  {
    if |calls| > 0 {
      NoWrongCalls(calls[1..]);
      assert calls == [calls[0]] + calls[1..];
    }
  }

  /**
   * `query_gen_node`'s post-processing: the generated message followed by
   * one wrong-tool reply for every call not named SubmitFinalAnswer.
   */
  method QueryGenNode(message: Message) returns (out: seq<Message>)
    ensures out == [message] + WrongToolReplies(ToolCallsOf(message))
  {
    var toolMessages: seq<Message> := [];
    var calls := ToolCallsOf(message);
    if |calls| > 0 {
      var i := 0;
      while i < |calls|
        invariant 0 <= i <= |calls|
        invariant toolMessages == WrongToolReplies(calls[..i])
      {
        var tc := calls[i];
        WrongCallsSnoc(calls[..i], tc);
        assert calls[..i + 1] == calls[..i] + [tc];
        if tc.name != SubmitFinalAnswerName {
          toolMessages := toolMessages + [ToolMessage(WrongToolContent(tc.name), tc.id)];
        }
        i := i + 1;
      }
      assert calls[..i] == calls;
    }
    out := [message] + toolMessages;
  }

  /**
   * Routing after the generator: the run ends exactly when the generated
   * message calls tools and all of them are SubmitFinalAnswer; any wrong call
   * sends the run back to the generator; a plain text goes to the checker
   * unless it starts with the error prefix.
   */
  lemma QueryGenRouting(prior: seq<Message>, message: Message)
    ensures var after := prior + [message] + WrongToolReplies(ToolCallsOf(message));
      && (Graph.ShouldContinue(after) == Graph.End <==> Terminal(message))
      && (WrongCalls(ToolCallsOf(message)) != [] ==> Graph.ShouldContinue(after) == Graph.QueryGen)
      && (Graph.ShouldContinue(after) == Graph.CorrectQuery <==>
            ToolCallsOf(message) == [] && !StartsWith(message.content, Graph.ErrorPrefix))
  {
    var calls := ToolCallsOf(message);
    var replies := WrongToolReplies(calls);
    var after := prior + [message] + replies;
    NoWrongCalls(calls);
    if |replies| > 0 {
      assert Last(after) == replies[|replies| - 1];
    } else {
      assert Last(after) == message;
    }
  }
}
