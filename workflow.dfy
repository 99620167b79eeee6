/**
 * One run of the query workflow: the conversation grows node by node, and
 * the node to run next is decided by the fixed edges and, after the query
 * generator, by the router. The language model, the tools and the database
 * are oracles given as parameters.
 */
module Workflow {
  import opened Wrappers
  import opened Messages
  import opened QueryTool
  import opened Api
  import Graph
  import Nodes

  /**
   * The outside world of a run: the three model calls, the two schema tools,
   * the database behind the query tool, and whether a tool node raises (and
   * with which exception text).
   */
  datatype Oracles = Oracles(
    schemaModel: seq<Message> -> Reply,
    queryGen: seq<Message> -> Reply,
    queryCheck: Message -> Reply,
    listTables: ToolCall -> string,
    getSchema: ToolCall -> string,
    database: ToolCall -> DriverResult,
    toolFailure: (Graph.Node, seq<Message>) -> Option<string>)

  /** The query tool as a tool: the driver's result, formatted. */
  function QueryToolOutput(database: ToolCall -> DriverResult): ToolCall -> string {
    c => DbQueryTool(database(c))
  }

  /**
   * A point a run can stand at: past START, with a non-empty conversation,
   * and a model reply waiting whenever a tool node is next.
   */
  predicate Poised(at: Graph.Node, messages: seq<Message>) {
    && at != Graph.Start
    && |messages| > 0
    && (Graph.IsToolNode(at) ==> Last(messages).AIMessage?)
  }

  /** `final` is `prior` followed by the generator's reply to `prior`, and that reply is terminal. */
  predicate GeneratorEnded(o: Oracles, prior: seq<Message>, final: seq<Message>) {
    && Terminal(o.queryGen(prior).AsMessage())
    && final == prior + [o.queryGen(prior).AsMessage()]
  }

  /**
   * One node of the workflow run on the conversation so far: the messages
   * it appends, and the node that runs next (along the fixed edge, or as the
   * router decides after the generator). Only a generator step whose reply
   * is terminal leads to END.
   */
  function Step(o: Oracles, at: Graph.Node, messages: seq<Message>): (next: (Graph.Node, seq<Message>))
    requires Poised(at, messages) && at != Graph.End
    ensures messages <= next.1
    ensures Poised(next.0, next.1)
    ensures next.0 == Graph.Successor(at, next.1)
    ensures next.0 == Graph.End ==> at == Graph.QueryGen && GeneratorEnded(o, messages, next.1)
  {
    match at
    case FirstToolCall =>
      var ms := messages + Nodes.FirstToolCall();
      (Graph.Successor(at, ms), ms)
    case ListTablesTool =>
      var ms := messages + Nodes.ToolNodeReplies(messages, o.listTables, o.toolFailure(at, messages));
      (Graph.Successor(at, ms), ms)
    case ModelGetSchema =>
      var ms := messages + [o.schemaModel(messages).AsMessage()];
      (Graph.Successor(at, ms), ms)
    case GetSchemaTool =>
      var ms := messages + Nodes.ToolNodeReplies(messages, o.getSchema, o.toolFailure(at, messages));
      (Graph.Successor(at, ms), ms)
    case QueryGen =>
      var m := o.queryGen(messages).AsMessage();
      var ms := messages + [m] + Nodes.WrongToolReplies(ToolCallsOf(m));
      Nodes.QueryGenRouting(messages, m);
      Nodes.NoWrongCalls(ToolCallsOf(m));
      (Graph.Successor(at, ms), ms)
    case CorrectQuery =>
      var ms := messages + [o.queryCheck(Last(messages)).AsMessage()];
      (Graph.Successor(at, ms), ms)
    case ExecuteQuery =>
      var ms := messages + Nodes.ToolNodeReplies(messages, QueryToolOutput(o.database), o.toolFailure(at, messages));
      (Graph.Successor(at, ms), ms)
  }

  /**
   * The run from `at` after at most `fuel` nodes (a bound of the model, not
   * of the application): the first `fuel - 1` nodes, then one more unless
   * the run has reached END. The conversation only grows, and a run that
   * ended stands on a terminal reply.
   */
  function RunFrom(o: Oracles, at: Graph.Node, messages: seq<Message>, fuel: nat): (final: (Graph.Node, seq<Message>))
    requires Poised(at, messages) && (at == Graph.End ==> Terminal(Last(messages)))
    ensures messages <= final.1
    ensures Poised(final.0, final.1)
    ensures final.0 == Graph.End ==> Terminal(Last(final.1))
    decreases fuel
  {
    if fuel == 0 then (at, messages)
    else
      var prev := RunFrom(o, at, messages, fuel - 1);
      if prev.0 == Graph.End then prev else Step(o, prev.0, prev.1)
  }

  /** Once a run has reached END, more fuel changes nothing. */
  lemma {:induction false} RunFromStaysAtEnd(o: Oracles, at: Graph.Node, messages: seq<Message>, k: nat, n: nat)
    requires Poised(at, messages) && (at == Graph.End ==> Terminal(Last(messages)))
    requires k <= n && RunFrom(o, at, messages, k).0 == Graph.End
    ensures RunFrom(o, at, messages, n) == RunFrom(o, at, messages, k)
    decreases n
  {
    if k < n {
      RunFromStaysAtEnd(o, at, messages, k, n - 1);
    }
  }

  /**
   * A run that starts before END reaches END only through a generator step:
   * its final conversation is some earlier conversation followed by the
   * generator's terminal reply to it.
   */
  lemma {:induction false} RunEndsOnlyByGenerator(o: Oracles, at: Graph.Node, messages: seq<Message>, fuel: nat)
    requires Poised(at, messages) && at != Graph.End
    ensures RunFrom(o, at, messages, fuel).0 == Graph.End ==>
      exists prior :: GeneratorEnded(o, prior, RunFrom(o, at, messages, fuel).1)
    decreases fuel
  {
    if fuel > 0 {
      var prev := RunFrom(o, at, messages, fuel - 1);
      if prev.0 == Graph.End {
        RunEndsOnlyByGenerator(o, at, messages, fuel - 1);
      } else if RunFrom(o, at, messages, fuel).0 == Graph.End {
        assert GeneratorEnded(o, prev.1, RunFrom(o, at, messages, fuel).1);
      }
    }
  }

  class Run {
    const question: string
    var messages: seq<Message>
    var at: Graph.Node

    /**
     * The run starts with the question; a tool node always finds a model
     * reply to serve; and the run has ended only on a reply that calls
     * SubmitFinalAnswer and nothing else.
     */
    ghost predicate Valid()
      reads this
    {
      && Poised(at, messages)
      && messages[0] == HumanMessage(question)
      && (at == Graph.End ==> Terminal(Last(messages)))
    }

    /** The state the caller hands in, followed by the edge out of START. */
    constructor (question: string)
      ensures Valid()
      ensures this.question == question
      ensures messages == [HumanMessage(question)]
      ensures at == Graph.FirstToolCall
    {
      this.question := question;
      messages := [HumanMessage(question)];
      at := Graph.Successor(Graph.Start, []);
    }

    method FirstToolCallStep()
      requires Valid() && at == Graph.FirstToolCall
      modifies this
      ensures Valid()
      ensures messages == old(messages) + Nodes.FirstToolCall()
      ensures at == Graph.ListTablesTool
    {
      messages := messages + Nodes.FirstToolCall();
      at := Graph.Successor(at, messages);
    }

    /**
     * A tool node (list tables, get schema, execute query): every call of the
     * last model reply gets exactly one reply with its id; the run follows
     * the node's fixed edge.
     */
    method ToolStep(tool: ToolCall -> string, raised: Option<string>)
      requires Valid() && Graph.IsToolNode(at)
      modifies this
      ensures Valid()
      ensures messages == old(messages) + Nodes.ToolNodeReplies(old(messages), tool, raised)
      ensures Answers(Last(old(messages)).toolCalls, messages[|old(messages)|..])
      ensures at == Graph.FixedNext(old(at)).value
    {
      var replies := Nodes.ToolNodeReplies(messages, tool, raised);
      messages := messages + replies;
      assert messages[|old(messages)|..] == replies;
      at := Graph.Successor(at, messages);
    }

    /** `execute_query`: the query tool's formatted output per call; back to the generator. */
    method ExecuteQueryStep(database: ToolCall -> DriverResult, raised: Option<string>)
      requires Valid() && at == Graph.ExecuteQuery
      modifies this
      ensures Valid()
      ensures messages == old(messages) + Nodes.ToolNodeReplies(old(messages), QueryToolOutput(database), raised)
      ensures at == Graph.QueryGen
    {
      ToolStep(QueryToolOutput(database), raised);
    }

    /** `model_get_schema`: the model's reply is appended; the schema tool runs next. */
    method ModelGetSchemaStep(reply: Reply)
      requires Valid() && at == Graph.ModelGetSchema
      modifies this
      ensures Valid()
      ensures messages == old(messages) + [reply.AsMessage()]
      ensures at == Graph.GetSchemaTool
    {
      messages := messages + [reply.AsMessage()];
      at := Graph.Successor(at, messages);
    }

    /**
     * `query_gen` followed by the router: the generated message and its
     * wrong-tool replies are appended; the run ends exactly when the message
     * calls only SubmitFinalAnswer, and a wrong call sends it back here.
     */
    method QueryGenStep(reply: Reply)
      requires Valid() && at == Graph.QueryGen
      modifies this
      ensures Valid()
      ensures messages == old(messages) + [reply.AsMessage()] + Nodes.WrongToolReplies(reply.toolCalls)
      ensures at == Graph.ShouldContinue(messages)
      ensures at == Graph.End <==> Terminal(reply.AsMessage())
      ensures Nodes.WrongCalls(reply.toolCalls) != [] ==> at == Graph.QueryGen
    {
      var message := reply.AsMessage();
      var out := Nodes.QueryGenNode(message);
      Nodes.QueryGenRouting(messages, message);
      assert messages + out == messages + [message] + Nodes.WrongToolReplies(reply.toolCalls);
      messages := messages + out;
      at := Graph.ShouldContinue(messages);
    }

    /** `correct_query`: the checker's reply is appended; execution runs next. */
    method CorrectQueryStep(reply: Reply)
      requires Valid() && at == Graph.CorrectQuery
      modifies this
      ensures Valid()
      ensures messages == old(messages) + [reply.AsMessage()]
      ensures at == Graph.ExecuteQuery
    {
      messages := messages + [reply.AsMessage()];
      at := Graph.Successor(at, messages);
    }

    /**
     * `workflow_app.invoke`: runs nodes until END, or until `fuel` nodes have
     * run (a bound of the model, not of the application); the new state is
     * exactly what the nodes, run in the graph's order, produce.
     */
    method Invoke(o: Oracles, fuel: nat) returns (finished: bool)
      requires Valid()
      modifies this
      ensures Valid()
      ensures (at, messages) == RunFrom(o, old(at), old(messages), fuel)
      ensures finished <==> at == Graph.End
    {
      var steps := 0;
      while at != Graph.End && steps < fuel
        invariant Valid()
        invariant 0 <= steps <= fuel
        invariant (at, messages) == RunFrom(o, old(at), old(messages), steps)
        decreases fuel - steps
      {
        RunNode(o);
        steps := steps + 1;
      }
      if steps < fuel {
        RunFromStaysAtEnd(o, old(at), old(messages), steps, fuel);
      }
      finished := at == Graph.End;
    }

    /** Runs the node the run stands at, with the oracles' answers for this state. */
    method RunNode(o: Oracles)
      requires Valid() && at != Graph.End
      modifies this
      ensures Valid()
      ensures (at, messages) == Step(o, old(at), old(messages))
    {
      match at {
        case FirstToolCall => FirstToolCallStep();
        case ListTablesTool => ToolStep(o.listTables, o.toolFailure(at, messages));
        case ModelGetSchema => ModelGetSchemaStep(o.schemaModel(messages));
        case GetSchemaTool => ToolStep(o.getSchema, o.toolFailure(at, messages));
        case QueryGen => QueryGenStep(o.queryGen(messages));
        case CorrectQuery => CorrectQueryStep(o.queryCheck(Last(messages)));
        case ExecuteQuery => ExecuteQueryStep(o.database, o.toolFailure(at, messages));
      }
    }
  }

  /**
   * `POST /query`: runs the workflow on the question from `first_tool_call`
   * and extracts the final answer; `None` when the run did not reach END
   * within `fuel` nodes. A run that ended did so on the generator's terminal
   * reply to the conversation before it, and a success is never empty.
   */
  method RunQuery(question: string, o: Oracles, fuel: nat)
    returns (trace: seq<Message>, answer: Option<Result<string, AnswerFailure>>)
    ensures |trace| > 0 && trace[0] == HumanMessage(question)
    ensures var final := RunFrom(o, Graph.FirstToolCall, [HumanMessage(question)], fuel);
      trace == final.1 && (answer.Some? <==> final.0 == Graph.End)
    ensures answer.Some? ==> (exists prior :: GeneratorEnded(o, prior, trace))
    ensures answer.Some? ==> Terminal(Last(trace)) && answer.value == ExtractFinalAnswer(trace)
    ensures answer.Some? && answer.value.Success? ==>
      answer.value.value != "" && Last(trace).toolCalls[0].name == SubmitFinalAnswerName
  {
    var run := new Run(question);
    var finished := run.Invoke(o, fuel);
    trace := run.messages;
    RunEndsOnlyByGenerator(o, Graph.FirstToolCall, [HumanMessage(question)], fuel);
    if finished {
      TerminalAnswer(trace);
      answer := Some(ExtractFinalAnswer(trace));
    } else {
      answer := None;
    }
  }
}
