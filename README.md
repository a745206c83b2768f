# CanyonCode agent core in Dafny

This project models the two stateable pieces of the CanyonCode video-analytics
agent:

- **The tool layer** (`tools.py`, module `Tools`, with the Python string
  methods it needs in module `PyText`). It has three read-only tools the chat
  model may call:
  - `execute_sql_query` runs a prefix guard, then asks the database. It turns
    the answer into one of four texts: the rejection, "No results found.",
    the rendered table, or "Query failed with error: …".
  - `get_parameter_value` looks a name up in the encoder or decoder values
    document, using "Not found" as the default.
  - `get_schema_details` dispatches three ways. The `table` branch builds a
    `SELECT` and delegates to `execute_sql_query`. The `encoder` and
    `decoder` branches look the name up under `properties` in the schema
    document, using a default descriptor.

  The tools are functions of their arguments and of a `Store`. The store
  holds the database (`Store.database`, a function from query text to a
  result set or an error message) and the four JSON documents. The library
  formatting the tools rely on is supplied as functions in `Formatters`:
  - pandas' `to_string`;
  - Python's `str()` of a JSON value other than a string, None or a bool
    (`Tools.PyStr` writes those three cases out itself);
  - `json.dumps`.

  The tools themselves are `Tools.ExecuteSqlQuery` (tools.py:29-69),
  `Tools.GetParameterValue` (tools.py:72-99) and `Tools.GetSchemaDetails`
  (tools.py:102-137). They carry no contract of their own; the lemmas in the
  table state their properties:
  - execute_sql_query: `Tools.NonSelectNeverReachesDatabase`,
    `Tools.SelectDependsOnlyOnItsAnswer`, `Tools.EmptyResultIsNoResults`,
    `Tools.DatabaseErrorIsReported` and `Tools.RowsAreRendered`; the guard
    itself by `Tools.GuardReadsLeadingKeyword`;
  - get_parameter_value: `Tools.ParameterLookupReports`,
    `Tools.MissingParameterIsNotFound`, `Tools.ParameterLookupReadsOneMap` and
    `Tools.UnknownConfigTypeRejected`;
  - get_schema_details: `Tools.TableSchemaDelegatesToQuery`,
    `Tools.SchemaDescriptorLookup`, `Tools.MalformedSchemaRaises` and
    `Tools.UnknownSchemaTypeRejected`.
- **The agent control loop** (`agent.py`, modules `Agent` and `Workflow`):
  - The message history and its reducer, `x + y`.
  - The three nodes: `system_init` (`ensure_system_prompt`), `agent`, and
    `action` (`logged_tool_node`).
  - The router `should_continue` and the graph's edges.
  - The run of the compiled graph under a step budget.
  - `LoggedWorkflow.stream`.

  The chat model and LangGraph's prebuilt tool executor are functions in
  `Collaborators`. Node functions are bound to node names in `Workflow.Graph`,
  and `Workflow.AgentGraph` is the graph `agent.py` builds. The wiring is:
  - `Agent.NodeUpdate` (agent.py:229-231): which function each node runs.
    Its properties are `Workflow.AgentGraphRepliesOnce` and the node lemmas
    in the table.
  - `Agent.Successor` (agent.py:235-251): the edges and the conditional edge
    from the agent node. Its properties are `Agent.SuccessorFollowsEdges` and
    `Agent.ActionRunsOnlyWithPendingCalls`.

In the agent loop:

- `Workflow.Exec` is the specification of a run: a recursive function over
  the remaining budget. It returns the status (`Done` or `Aborted`), the
  final history, and the trace of streamed outputs.
- `Workflow.Run` is the driving `while` loop, proved equal to `Exec`.
- `Workflow.Stream` is the `for` loop of `LoggedWorkflow.stream`, which
  yields every output unchanged and counts them.

## Where the code and the intended behaviour differ

The model follows the code in each case.

- **The SQL guard is a plain prefix test.** The tool's docstring promises
  that "Only SELECT statements are permitted" (tools.py:38). But the test has
  no word boundary and does not look past the first statement, so `SELECTED`
  passes, and so does `SELECT 1; DROP TABLE camera_feeds`: see
  `Tools.GuardIsPrefixOnly`.
- **`get_schema_details` can raise.** It raises `KeyError` when a schema
  document has no `"properties"` entry. It raises `AttributeError` when that
  entry is not an object, because `.get` is called on it. The intended
  behaviour is that a tool always answers with text. `Tools.MalformedSchemaRaises`
  states when each error escapes.
- **The system prompt is not kept exactly once.** The docstring of
  `ensure_system_prompt` says the prompt is "always present at the beginning
  of the conversation" (agent.py:153-154). But the function returns the whole
  message list in both branches, and the reducer appends that update to the
  existing history. So `system_init` on a non-empty history leaves the old
  history in front. A history without a system message becomes
  `old + [prompt] + old`, and its first message is still not the prompt: see
  `Agent.SystemInitMergeRepeatsHistory` and `Agent.SystemInitMergeExample`.
  The `agent` node re-runs the same test on the list it hands to the model,
  so the model always sees a system message first
  (`Agent.AgentUpdateIsReplyOnly`).
- **The budget counts node executions, not model invocations.** A model that
  always asks for tools alternates agent and action steps after
  `system_init`. It is therefore invoked `limit / 2` times before the run
  aborts (`Workflow.ToolHungryModelAborts`). The intended behaviour is an
  abort after `limit` model invocations.
- **The table branch does not escape the name.** The parameter name is
  pasted between single quotes as written (`Tools.TableQueryIsSelect`). The
  result still always passes the guard, whatever the name.

## Model

| member | source | states |
|---|---|---|
| PyText.UpperChar | tools.py:49 | str.upper() on a character leaves no lower-case letter, and maps whitespace exactly to whitespace |
| PyText.Upper | tools.py:49 | upper-casing the result of str.upper() again changes nothing, and no lower-case letter is left |
| PyText.LStrip | tools.py:49 | str.lstrip() leaves a suffix of the input; what it removed is all whitespace; the result does not start with whitespace |
| PyText.RStrip | tools.py:49 | str.rstrip() leaves a prefix of the input; what it removed is all whitespace; the result does not end with whitespace |
| PyText.Strip | tools.py:49 | str.strip() is lstrip's result with a trailing run of whitespace removed, and starts and ends with non-whitespace |
| PyText.UpperKeepsSpace | tools.py:49 | characters that upper-case alike are whitespace alike |
| PyText.LStripSkipsSpace | tools.py:49 | leading whitespace makes no difference to lstrip |
| PyText.LStripAppend | tools.py:49 | lstrip of s + w is lstrip(s) + w, or lstrip(w) when s is all whitespace |
| PyText.LStripSameUpper | tools.py:49 | strings that agree up to case still agree up to case after lstrip |
| Tools.GuardReadsLeadingKeyword | tools.py:49 | the guard holds exactly when the first six characters after leading whitespace upper-case to SELECT |
| Tools.GuardIgnoresCase | tools.py:49 | two queries that upper-case alike are both admitted or both rejected |
| Tools.GuardIgnoresSurroundingSpace | tools.py:49 | whitespace before and after a query does not change the guard's verdict |
| Tools.NonSelectNeverReachesDatabase | tools.py:49-52 | a query failing the guard yields exactly the rejection text, for any two databases, so the database is never consulted |
| Tools.SelectDependsOnlyOnItsAnswer | tools.py:54-57 | an admitted query is sent to the database as written, and only the database's answer to it decides the result |
| Tools.OutcomeTextsDistinct | tools.py:50-67 | the rejection and no-results texts differ, and neither starts with the failure prefix |
| Tools.EmptyResultIsNoResults | tools.py:58-59 | an admitted query with an empty result (no rows or no columns) yields exactly "No results found.", which is neither the rejection nor a failure report |
| Tools.DatabaseErrorIsReported | tools.py:66-69 | a database error yields the failure prefix followed by the error's text, distinct from both fixed texts |
| Tools.RowsAreRendered | tools.py:61-62 | a non-empty result is returned as to_string's rendering of the table |
| Tools.LowerCaseSelectPasses | tools.py:49 | the indented lower-case "  select * from camera_feeds" passes the guard |
| Tools.LowerCaseSelectReachesDatabase | tools.py:49-57 | that query's result is the database's answer to it rendered as text |
| Tools.DropTableRejected | tools.py:49-52 | "DROP TABLE camera_feeds" gets the rejection text |
| Tools.GuardIsPrefixOnly | tools.py:49 | "SELECTED" and "SELECT 1; DROP TABLE camera_feeds" both pass the guard |
| Tools.ParameterLookupReports | tools.py:86-95 | for "encoder" or "decoder" the answer is "The value of '<name>' in <type> config is: <value>", with str() of the entry or "Not found", and is never the config-type error |
| Tools.MissingParameterIsNotFound | tools.py:87-93 | a name absent from the chosen map gives an answer ending in "Not found" |
| Tools.ParameterLookupReadsOneMap | tools.py:86-95 | the answer depends only on the map the config type selects |
| Tools.UnknownConfigTypeRejected | tools.py:96-99 | any other config type, including "Encoder", gets the fixed error text whatever the documents hold |
| Tools.DecoderPresetIsReported | tools.py:91-95 | a decoder document {"preset": "fast"} answers "The value of 'preset' in decoder config is: fast" |
| Tools.TableQueryIsSelect | tools.py:120 | the table-definitions query passes the guard for every name, and contains the name verbatim |
| Tools.TableSchemaDelegatesToQuery | tools.py:118-123 | the table branch is execute_sql_query on that query, and always takes the database path |
| Tools.SchemaDescriptorLookup | tools.py:124-133 | with an object under "properties", the answer is json.dumps of the descriptor, or of {"description": "Not found"} when the name is absent |
| Tools.MalformedSchemaRaises | tools.py:125-130 | without an object under "properties" the tool raises: KeyError("properties") when the entry is missing, AttributeError("get") when it is not an object |
| Tools.UnknownSchemaTypeRejected | tools.py:134-137 | any other schema type gets the fixed error text whatever the store holds |
| Agent.Merge | agent.py:30 | the merged history is the old history followed by the whole update |
| Agent.EnsureSystemPrompt | agent.py:152-165 | the result starts with a system message and ends with the input; the prompt is added in front exactly when the input lacks a leading system message, adding one system message |
| Agent.EnsureSystemPromptIdempotent | agent.py:159-165 | applying ensure_system_prompt twice is applying it once |
| Agent.AgentNode | agent.py:117-150 | the agent node's update is exactly one AI message |
| Agent.AgentUpdateIsReplyOnly | agent.py:126-150 | after the merge the history is the old one plus the model's reply, with no added system message, while the model saw a list starting with one |
| Agent.ToolNode | agent.py:168-198 | with no history or no tool calls on the last message the update is the state itself; otherwise it is the executor's result |
| Agent.IdleToolNodeRunsNothing | agent.py:175-183 | without pending tool calls the update is the same whatever the executor would do |
| Agent.ShouldContinue | agent.py:201-220 | "continue" exactly when the history is non-empty and its last message carries tool calls |
| Agent.SuccessorFollowsEdges | agent.py:235-251 | the next node follows a declared edge, nothing returns to system_init, and the only exit is from agent on "end" |
| Agent.ActionRunsOnlyWithPendingCalls | agent.py:243-247 | action is reached only from agent, with tool calls pending |
| Agent.SystemInitMergeRepeatsHistory | agent.py:30 | after system_init's update is merged, the old history stands both first and last |
| Agent.SystemInitMergeExample | agent.py:159-162 | [AI greeting, user question] becomes [greeting, question, prompt, greeting, question] |
| Workflow.Exec | agent.py:225-255 | a run takes at most the budget's steps, and all of them when it is aborted |
| Workflow.Run | agent.py:255 | the loop over the compiled graph computes exactly Exec from the entry point |
| Workflow.Stream | agent.py:263-273 | the outputs are yielded in order and unchanged, and step_count equals their number |
| Workflow.StreamRun | agent.py:263-273 | streaming a run yields its trace, step_count equals the number yielded and is at most the budget, and the stream ends as the run does: normally, or aborted with the recursion-limit error after exactly `limit` outputs |
| Workflow.ExecHistory | agent.py:30 | the final history is the input followed by every step's update, in order |
| Workflow.TraceFollowsEdges | agent.py:235-251 | the trace starts at the starting node and each step follows a declared edge |
| Workflow.AgentGraphRepliesOnce | agent.py:150 | the agent graph's agent node answers with one AI message |
| Workflow.FinalStep | agent.py:243-247 | the graph stops only after an agent step whose reply, now last in the history, asks for no tools |
| Workflow.DoneEndsWithAnswer | agent.py:208-220 | a run that ends normally ends on an agent step, with an AI message without tool calls last in the history |
| Workflow.GraphRunShape | agent.py:235-251 | for any binding of the nodes whose agent replies with one AI message: the entry runs first and never again, the steps follow the edges, a normal end leaves a last message without tool calls, the history is the input plus all updates, and the budget is respected |
| Workflow.RunShape | agent.py:225-255 | system_init runs first on the input and never again; the steps follow the edges; a normal end leaves a last message without tool calls; the history is the input plus all updates; the budget is respected |
| Workflow.AnswerEndsRun | agent.py:243-247 | an agent step whose reply asks for no tools ends the run at once |
| Workflow.AnswerFirstEndsRun | agent.py:235-247 | if the agent never asks for tools, the run is system_init then agent, ending normally after one model call |
| Workflow.AgentGraphAnswers | agent.py:137-150 | a model that never returns tool calls makes the agent node's reply tool-free |
| Workflow.ToolFreeModelAnswersOnce | agent.py:225-255 | with such a model a run with budget of at least 2 ends normally after two steps and one model call |
| Workflow.AgentGraphCallsTools | agent.py:137-150 | a model that always returns tool calls makes every agent reply ask for tools |
| Workflow.ToolHungryLoop | agent.py:243-251 | from agent or action, an agent that always asks for tools exhausts the budget, alternating agent and action |
| Workflow.HungryRunAborts | agent.py:235-251 | from the entry point such a run is aborted after exactly the budget's steps, with limit / 2 agent steps |
| Workflow.ToolHungryModelAborts | agent.py:225-255 | a model that always asks for tools leads to an aborted run of exactly limit steps and limit / 2 model calls |

## Left out

- Logging in every function, the `SYSTEM_PROMPT` text (a field of
  `Collaborators`), and the loading of environment variables and JSON files.
  The four documents are passed in as maps.
- The OpenRouter/OpenAI client and `bind_tools`. The model is a function from
  history to reply, so network failures are not modelled.
- The inside of LangGraph's prebuilt `ToolNode`: call resolution,
  tool-call id matching, and what it does with an unknown tool. It is a
  function from history to the messages it returns.
- LangGraph's exact recursion-limit counting. The budget is a parameter
  counting node executions. app.py passes 10, and app.py is not part of this
  model.
- SQL semantics, SQLAlchemy connections, pandas' `to_string` layout, Python's
  `str()` of numbers, lists and objects, and `json.dumps` formatting. These
  are the supplied functions of `Store` and `Formatters`. An exception raised
  inside `to_string` is not modelled.
- `PyText.Upper`, `PyText.LStrip`, `PyText.RStrip`: only ASCII behaviour is
  modelled. Unicode whitespace and case mappings are outside the model. The
  lemmas about `Tools.IsSelectQuery` therefore hold of the program only for
  ASCII queries. For instance, Python strips a leading no-break space
  (U+00A0), so the program admits `"\u00a0SELECT 1"`, while the model rejects
  it.
- `LoggedWorkflow.invoke` and `LoggedWorkflow.__init__`: plain delegation to
  the compiled graph, which `Workflow.Run` models.
- ingest_to_sqlite.py and the Streamlit page in app.py are not part of this
  model.
