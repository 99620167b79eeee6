# Subway outlets query workflow — a Dafny model

This project models the deterministic part of the outlets service's
natural-language-to-SQL assistant (`main.py`). A question starts a LangGraph
workflow whose state is one list of messages. The nodes run in this order:

- `first_tool_call` seeds a call to list the tables.
- The list-tables tool answers it.
- A model reply asks for schemas, and the schema tool answers.
- `query_gen` either writes a query as plain text or calls `SubmitFinalAnswer`.
- The router `should_continue` sends the run to END, back to `query_gen`, or
  to `correct_query`.
- `correct_query` re-issues the query as a call of the query tool, and
  `execute_query` runs it and returns to `query_gen`.

The language model, the tools and the database are oracles. The model takes
their outputs as parameters (the `Workflow.Oracles` record) and proves the
control-flow facts that hold whatever they return:

- a run is exactly the nodes run in the graph's order on the oracles'
  answers, and it ends only after `query_gen`, on the generator's reply to
  the conversation before it, when that reply calls `SubmitFinalAnswer` and
  nothing else — so a wrong-tool call never ends a run;
- every tool node answers each pending call exactly once, in order, with the
  call's id;
- the query endpoint never returns an empty answer.

The model also covers the reply texts, the query tool's output formatting and
the two outlet read endpoints' 404 rules.

Modules: `Wrappers` (Option/Result), `Text` (prefix, suffix, containment,
join/split), `Messages` (messages and tool calls), `Graph` (nodes, router,
edge table, graph construction), `Nodes` (what the deterministic nodes
append), `QueryTool` (`db_query_tool`), `Api` (outlet endpoints and
final-answer extraction), `Workflow` (one run as a class, driven node by
node).

Notes on the code's behaviour:

- When the driver returns empty text, `db_query_tool` returns the fixed
  `"Error: Query failed. Please rewrite your query and try again."`
  diagnostic (main.py:126-127).
- A `query_gen` message with a wrong tool call never reaches END. Its
  wrong-tool replies come last in the state, so `should_continue` sends the
  run back to `query_gen` (main.py:229-239, main.py:249-252).
- A message that mixes `SubmitFinalAnswer` with a wrong call gets replies for
  the wrong calls only. The submit call stays unanswered (main.py:231-238).
- The `query_gen` → `correct_query` → `execute_query` cycle has no bound on
  the number of re-entries (main.py:262-264).

## Model

| member | source | states |
|---|---|---|
| Graph.ShouldContinue | main.py:246-254 | three-way split: END iff the last message carries tool calls; otherwise `query_gen` iff its content starts with "Error:", else `correct_query` |
| Graph.FixedNext | main.py:257-264 | every node but `query_gen` and END has a fixed successor; no fixed edge leads to END or back to START |
| Graph.EdgesAreFixedNext | main.py:257-264 | the edge set added to the graph and the node-by-node successor agree on every pair |
| Graph.Successor | main.py:246-264 | the next node is never START, and it is END only after `query_gen` on a last message with tool calls |
| Graph.FixedPaths | main.py:257-264 | START → first_tool_call → list_tables_tool → model_get_schema → get_schema_tool → query_gen; correct_query → execute_query → query_gen |
| Graph.StateGraph.constructor | main.py:162 | a new graph has no nodes, edges or routers |
| Graph.StateGraph.AddNode | main.py:179-243 | registers one new node; edges and routers unchanged |
| Graph.StateGraph.AddEdge | main.py:257-264 | adds one edge; nodes and routers unchanged |
| Graph.StateGraph.AddConditionalEdges | main.py:262 | marks one node as routed; nodes and edges unchanged |
| Graph.AddWorkflowNodes | main.py:179-243 | the seven workflow nodes are registered, no edge yet |
| Graph.BuildWorkflow | main.py:162-264 | the assembled graph has exactly the seven nodes, the seven fixed edges and the router on `query_gen` |
| Nodes.FirstToolCall | main.py:165-173 | exactly one AI message with empty content and one call: `sql_db_list_tables`, empty args, id `tool_abcd123`; it is not a terminal reply |
| Nodes.ToolErrorContent | main.py:99 | the fallback text starts with "Error: ", ends with "\n please fix your mistakes." and contains the error's repr |
| Nodes.HandleToolError | main.py:92-104 | one reply per call of the last message, in order, each carrying that call's id, with the fallback text |
| Nodes.ToolNodeReplies | main.py:107-111 | a tool node with its fallback answers every pending call exactly once with its id: with the tool's output, or with an "Error:" text when the tools raise |
| Nodes.WrongToolContent | main.py:235 | a wrong-tool reply starts with "Error:" and contains the offending tool's name |
| Nodes.WrongToolReplies | main.py:229-238 | one reply per wrong call, in order, each carrying that call's id and the wrong-tool text for its name |
| Nodes.WrongCallsSnoc | main.py:231-238 | appending a call adds its wrong-tool reply, if any, after the earlier ones (call order) |
| Nodes.WrongCallsExactlyOnce | main.py:231-238 | every call not named SubmitFinalAnswer gets exactly as many replies as it occurs; submit calls get none |
| Nodes.NoWrongCalls | main.py:230-238 | no reply is synthesised exactly when every call is named SubmitFinalAnswer |
| Nodes.QueryGenNode | main.py:227-239 | the output is the generated message followed by the wrong-tool replies for its calls |
| Nodes.QueryGenRouting | main.py:227-254 | after `query_gen`, END iff the message calls tools and all are SubmitFinalAnswer; any wrong call routes back to `query_gen`; `correct_query` iff no calls and no "Error:" prefix |
| QueryTool.RowLines | main.py:130 | one `- name: time` line per row, in row order |
| QueryTool.DbQueryTool | main.py:122-133 | empty driver text gives the fixed diagnostic; parsed rows give "Query Results:\n" followed by their `- name: time` lines joined by newlines; unparsable text is returned as is; never empty |
| QueryTool.QueryFailedIsError | main.py:125-127 | the empty-result diagnostic starts with "Error:", so the generator that runs next sees a failure |
| QueryTool.FormattedRowsSplitBack | main.py:129-131 | for single-line fields, the text after the header splits on newlines into exactly the rows' lines, in order |
| Api.GetAllOutlets | main.py:55-65 | 404 "No outlets found." iff the table is empty, otherwise every row |
| Api.GetOutlet | main.py:68-78 | 404 "Outlet not found." iff no row has the id, otherwise the first row that has it |
| Api.FoundOutletIsListed | main.py:55-78 | an outlet found by id is among the rows the list endpoint returns |
| Api.ExtractFinalAnswer | main.py:278-284 | success iff the last message's first call has a non-empty `final_answer`, which is then the answer; an empty one is the "missing" failure; a success is never empty |
| Api.TerminalAnswer | main.py:246-284 | after a run that ended, the answer's call is SubmitFinalAnswer and only its argument can make the request fail |
| Workflow.Run.constructor | main.py:277 | the state starts as the user's question, and the run is at `first_tool_call` |
| Workflow.Run.FirstToolCallStep | main.py:165-179 | appends the seeded call; list_tables_tool runs next |
| Workflow.Run.ToolStep | main.py:107-111 | appends one reply per pending call with its id; follows the node's fixed edge |
| Workflow.Run.ExecuteQueryStep | main.py:243 | appends the formatted query results (or the fallback errors); always returns to `query_gen` |
| Workflow.Run.ModelGetSchemaStep | main.py:184-188 | appends the model's reply; get_schema_tool runs next |
| Workflow.Run.QueryGenStep | main.py:227-254 | appends the message and its wrong-tool replies; END iff the message is terminal; a wrong call loops back to `query_gen` |
| Workflow.Run.CorrectQueryStep | main.py:175-177 | appends the checker's reply; execute_query runs next |
| Workflow.Step | main.py:165-264 | one node on the conversation: appends that node's output and moves to `Successor`; the conversation only grows; END follows only a `query_gen` step whose reply is terminal, and the new conversation is the old one plus that reply |
| Workflow.RunFrom | main.py:257-267 | the run after at most `fuel` nodes, step by step; the conversation only grows, and a run at END stands on a terminal reply |
| Workflow.RunFromStaysAtEnd | main.py:262-267 | once a run has reached END, more steps change nothing |
| Workflow.RunEndsOnlyByGenerator | main.py:246-264 | a run that starts before END reaches END only by the generator's terminal reply to the conversation before it |
| Workflow.Run.RunNode | main.py:162-264 | runs the node the run stands at; the new node and state are exactly `Step` of the old ones |
| Workflow.Run.Invoke | main.py:266-267 | the new node and state are exactly `RunFrom` of the old ones: the nodes run in graph order on the oracles' answers; finished iff at END |
| Workflow.RunQuery | main.py:273-286 | the trace is the run from `first_tool_call` on the question; an answer exists iff the run reached END, in which case the trace ends with the generator's terminal reply and the answer is the extracted one, never empty |

## Left out

- The language model (`ChatGroq` and its bound prompts): its replies are oracle parameters. The prompt texts are not modelled.
- SQLite, `SQLDatabase`, `SQLDatabaseToolkit` and `ToolNode`'s dispatch: the outputs of the list-tables, schema and query tools, and whether a tool node raises, are oracle parameters.
- The `eval` of the driver's text in `db_query_tool`: whether it yields (name, time) pairs is part of the driver oracle (`DriverResult.parsed`). Only the formatting of parsed pairs, the empty-text branch and the pass-through of unparsable text are modelled.
- LangGraph's `add_messages` reducer replaces messages that share an id. The model appends, which is what it does for the fresh messages these nodes produce.
- Workflow.Run.Invoke: takes a `fuel` bound on the number of node runs. This is a device of the model, not of the application, which loops without a bound. LangGraph's own step limit is library behaviour and is not modelled.
- FastAPI, CORS, dotenv and the HTTP plumbing: the final-answer and 404 decisions are modelled as results. The failures of the extraction at main.py:281-283 are modelled as failure kinds; Python's texts for them are not.
- A model call that raises inside the workflow (main.py:177, 187, 228), and the 500 response it causes at main.py:285-286, is not modelled: every model oracle returns a reply.
- The outlet read endpoints read the table as a sequence of rows. The SQL text and the connection handling are not modelled.
- `app.py` (the Streamlit map front end) is not part of this model.
- Graph.StateGraph.AddNode: requires a name that is new and is not START or END. LangGraph rejects the other cases, and the application never makes them.
