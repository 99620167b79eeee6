/**
 * The workflow graph: its nodes, the fixed edges, and the one conditional
 * router that runs after the query generator.
 */
module Graph {
  import opened Wrappers
  import opened Text
  import opened Messages

  datatype Node =
    | Start
    | FirstToolCall
    | ListTablesTool
    | ModelGetSchema
    | GetSchemaTool
    | QueryGen
    | CorrectQuery
    | ExecuteQuery
    | End

  /** The diagnostic prefix the router reads as "the last step failed". */
  const ErrorPrefix := "Error:"

  /** The nodes that run a tool over the last message's calls. */
  predicate IsToolNode(n: Node) {
    n == ListTablesTool || n == GetSchemaTool || n == ExecuteQuery
  }

  /**
   * `should_continue`: a last message with tool calls ends the run; otherwise
   * an "Error:" text goes back to the generator and anything else is checked.
   */
  function ShouldContinue(messages: seq<Message>): (next: Node)
    requires |messages| > 0
    ensures next == End || next == QueryGen || next == CorrectQuery
    ensures next == End <==> HasToolCalls(Last(messages))
    ensures next == QueryGen <==>
      !HasToolCalls(Last(messages)) && StartsWith(Last(messages).content, ErrorPrefix)
    ensures next == CorrectQuery <==>
      !HasToolCalls(Last(messages)) && !StartsWith(Last(messages).content, ErrorPrefix)
  {
    var last := Last(messages);
    if HasToolCalls(last) then End
    else if StartsWith(last.content, ErrorPrefix) then QueryGen
    else CorrectQuery
  }

  /** The registered nodes; START and END are the graph's own endpoints. */
  function WorkflowNodes(): set<Node> {
    {FirstToolCall, ListTablesTool, ModelGetSchema, GetSchemaTool, QueryGen, CorrectQuery, ExecuteQuery}
  }

  /** The unconditional edges, as the workflow adds them. */
  function WorkflowEdges(): set<(Node, Node)> {
    {
      (Start, FirstToolCall),
      (FirstToolCall, ListTablesTool),
      (ListTablesTool, ModelGetSchema),
      (ModelGetSchema, GetSchemaTool),
      (GetSchemaTool, QueryGen),
      (CorrectQuery, ExecuteQuery),
      (ExecuteQuery, QueryGen)
    }
  }

  /**
   * The successor along a fixed edge, written node by node. Only the query
   * generator (whose successor the router picks) and END have none, and no
   * fixed edge leads to END or back to START.
   */
  function FixedNext(n: Node): (next: Option<Node>)
    ensures next.None? <==> n == QueryGen || n == End
    ensures next != Some(End) && next != Some(Start)
  {
    match n
    case Start => Some(FirstToolCall)
    case FirstToolCall => Some(ListTablesTool)
    case ListTablesTool => Some(ModelGetSchema)
    case ModelGetSchema => Some(GetSchemaTool)
    case GetSchemaTool => Some(QueryGen)
    case CorrectQuery => Some(ExecuteQuery)
    case ExecuteQuery => Some(QueryGen)
    case QueryGen => None
    case End => None
  }

  /** The edge set and the node-by-node successor agree on every pair. */
  lemma EdgesAreFixedNext(a: Node, b: Node)
    ensures (a, b) in WorkflowEdges() <==> FixedNext(a) == Some(b)
  {
  }

  /** The node that runs after `at`, given the messages once `at` has run. */
  function Successor(at: Node, messages: seq<Message>): (next: Node)
    requires at != End
    requires at == QueryGen ==> |messages| > 0
    ensures next != Start
    ensures next == End ==> at == QueryGen && HasToolCalls(Last(messages))
  {
    if at == QueryGen then ShouldContinue(messages) else FixedNext(at).value
  }

  /**
   * From START the run walks first_tool_call, list_tables_tool,
   * model_get_schema and get_schema_tool to the generator; the checker leads
   * to execution and execution always back to the generator.
   */
  lemma FixedPaths(messages: seq<Message>)
    ensures Successor(Start, messages) == FirstToolCall
    ensures Successor(FirstToolCall, messages) == ListTablesTool
    ensures Successor(ListTablesTool, messages) == ModelGetSchema
    ensures Successor(ModelGetSchema, messages) == GetSchemaTool
    ensures Successor(GetSchemaTool, messages) == QueryGen
    ensures Successor(CorrectQuery, messages) == ExecuteQuery
    ensures Successor(ExecuteQuery, messages) == QueryGen
  {
  }

  /**
   * The graph under construction: registered nodes, unconditional edges and
   * the nodes whose successor a router chooses.
   */
  class StateGraph {
    var nodes: set<Node>
    var edges: set<(Node, Node)>
    var branches: set<Node>

    constructor ()
      ensures nodes == {} && edges == {} && branches == {}
    {
      nodes, edges, branches := {}, {}, {};
    }

    /** Registers a node; a name may be registered once and START/END are reserved. */
    method AddNode(n: Node)
      requires n !in nodes && n != Start && n != End
      modifies this
      ensures nodes == old(nodes) + {n}
      ensures edges == old(edges) && branches == old(branches)
    {
      nodes := nodes + {n};
    }

    method AddEdge(from: Node, to: Node)
      modifies this
      ensures edges == old(edges) + {(from, to)}
      ensures nodes == old(nodes) && branches == old(branches)
    {
      edges := edges + {(from, to)};
    }

    /**
     * Marks `from` as routed. The router itself is always `should_continue`;
     * which node it picks is given by `ShouldContinue` through `Successor`.
     */
    method AddConditionalEdges(from: Node)
      modifies this
      ensures branches == old(branches) + {from}
      ensures nodes == old(nodes) && edges == old(edges)
    {
      branches := branches + {from};
    }
  }

  /** Assembles the workflow in the order the application does. */
  method BuildWorkflow() returns (g: StateGraph)
    ensures fresh(g)
    ensures g.nodes == WorkflowNodes()
    ensures g.edges == WorkflowEdges()
    ensures g.branches == {QueryGen}
  {
    g := new StateGraph();
    AddWorkflowNodes(g);
    g.AddEdge(Start, FirstToolCall);
    g.AddEdge(FirstToolCall, ListTablesTool);
    g.AddEdge(ListTablesTool, ModelGetSchema);
    g.AddEdge(ModelGetSchema, GetSchemaTool);
    g.AddEdge(GetSchemaTool, QueryGen);
    g.AddConditionalEdges(QueryGen);
    g.AddEdge(CorrectQuery, ExecuteQuery);
    g.AddEdge(ExecuteQuery, QueryGen);
    assert g.edges == WorkflowEdges();
  }

  /** Registers the seven nodes of the workflow on an empty graph. */
  method AddWorkflowNodes(g: StateGraph)
    requires g.nodes == {} && g.edges == {} && g.branches == {}
    modifies g
    ensures g.nodes == WorkflowNodes() && g.edges == {} && g.branches == {}
  {
    g.AddNode(FirstToolCall);
    g.AddNode(ListTablesTool);
    g.AddNode(GetSchemaTool);
    g.AddNode(ModelGetSchema);
    g.AddNode(QueryGen);
    g.AddNode(CorrectQuery);
    g.AddNode(ExecuteQuery);
  }
}
