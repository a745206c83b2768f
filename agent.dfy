/** The agent graph of agent.py: the conversation state and its merge, the
    three nodes (system_init, agent, action), the router after the agent
    node, and the edges between them. The chat model and the prebuilt tool
    executor are supplied from outside as functions. */
module Agent {

  /** One tool invocation the model asks for. */
  datatype ToolCall = ToolCall(name: string, args: map<string, string>, id: string)

  /** The four message classes that appear in the history. Only AI messages
      carry a `tool_calls` attribute. */
  datatype Message =
    | SystemMessage(content: string)
    | HumanMessage(content: string)
    | AIMessage(content: string, toolCalls: seq<ToolCall>)
    | ToolMessage(content: string, toolCallId: string)

  type History = seq<Message>

  /** What the chat model returns for a history: text and tool calls. */
  datatype Reply = Reply(content: string, toolCalls: seq<ToolCall>)

  /** The collaborators the graph is built over: the system prompt text, the
      chat model with the three tools bound, and the prebuilt tool executor
      (its returned "messages" list). */
  datatype Collaborators = Collaborators(
    systemPrompt: string,
    model: History -> Reply,
    toolExecutor: History -> seq<Message>)

  /** `hasattr(m, 'tool_calls') and m.tool_calls`, as a list. */
  function ToolCallsOf(m: Message): seq<ToolCall> {
    if m.AIMessage? then m.toolCalls else []
  }

  /** The history is non-empty and begins with a system message. */
  predicate StartsWithSystem(h: History) {
    h != [] && h[0].SystemMessage?
  }

  /** Number of system messages in a history. */
  function CountSystem(h: History): nat {
    if h == [] then 0 else (if h[0].SystemMessage? then 1 else 0) + CountSystem(h[1..])
  }

  lemma {:induction false} CountSystemAppend(a: History, b: History)
    ensures CountSystem(a + b) == CountSystem(a) + CountSystem(b)
    decreases |a|
  {
    if a == [] {
      assert a + b == b;
    } else {
      assert (a + b)[0] == a[0] && (a + b)[1..] == a[1..] + b;
      CountSystemAppend(a[1..], b);
    }
  }

  /** The reducer on the "messages" channel, `lambda x, y: x + y`: the
      update a node returns is appended whole to the old history. */
  function Merge(prev: History, update: seq<Message>): (h: History)
    ensures |h| == |prev| + |update|
    ensures h[..|prev|] == prev && h[|prev|..] == update
  {
    prev + update
  }

  /** ensure_system_prompt, and the same test the agent node repeats before
      calling the model: the history itself when it already begins with a
      system message, otherwise the system prompt followed by the history. */
  function EnsureSystemPrompt(env: Collaborators, h: History): (r: History)
    ensures StartsWithSystem(r)
    ensures |r| == |h| + (if StartsWithSystem(h) then 0 else 1)
    ensures r[|r| - |h|..] == h
    ensures !StartsWithSystem(h) ==> r[0] == SystemMessage(env.systemPrompt)
    ensures CountSystem(r) == CountSystem(h) + (if StartsWithSystem(h) then 0 else 1)
  {
    if h == [] || !h[0].SystemMessage? then
      assert ([SystemMessage(env.systemPrompt)] + h)[1..] == h;
      [SystemMessage(env.systemPrompt)] + h
    else
      h
  }

  /** Ensuring the prompt twice is ensuring it once. */
  lemma EnsureSystemPromptIdempotent(env: Collaborators, h: History)
    ensures EnsureSystemPrompt(env, EnsureSystemPrompt(env, h)) == EnsureSystemPrompt(env, h)
  {
  }

  /** The AI message the chat model's reply becomes. */
  function ReplyMessage(r: Reply): Message {
    AIMessage(r.content, r.toolCalls)
  }

  /** The agent node: the model reads the history with the system prompt
      ensured, and the node's update is the model's single response. */
  function AgentNode(env: Collaborators, h: History): (update: seq<Message>)
    ensures |update| == 1 && update[0].AIMessage?
  {
    [ReplyMessage(env.model(EnsureSystemPrompt(env, h)))]
  }

  /** After the agent node's update is merged, the history is the old one plus
      the model's reply: the prompt the node prepended for the model is not
      part of the update, so the number of system messages does not change. */
  lemma AgentUpdateIsReplyOnly(env: Collaborators, h: History)
    ensures Merge(h, AgentNode(env, h)) == h + [ReplyMessage(env.model(EnsureSystemPrompt(env, h)))]
    ensures CountSystem(Merge(h, AgentNode(env, h))) == CountSystem(h)
    ensures StartsWithSystem(EnsureSystemPrompt(env, h))
  {
    var reply := ReplyMessage(env.model(EnsureSystemPrompt(env, h)));
    CountSystemAppend(h, [reply]);
    assert [reply][1..] == [];
  }

  /** The tool calls still to run: those of the last message. */
  function PendingCalls(h: History): seq<ToolCall> {
    if h == [] then [] else ToolCallsOf(h[|h| - 1])
  }

  /** logged_tool_node: with no history, or no tool calls on the last
      message, it returns the state as it is; otherwise the executor's
      result. */
  function ToolNode(env: Collaborators, h: History): (update: seq<Message>)
    ensures PendingCalls(h) == [] ==> update == h
    ensures PendingCalls(h) != [] ==> update == env.toolExecutor(h)
  {
    if h == [] then h
    else if ToolCallsOf(h[|h| - 1]) == [] then h
    else env.toolExecutor(h)
  }

  /** Without pending tool calls the tool node runs no tools: its update is
      the same whatever the executor would do. */
  lemma IdleToolNodeRunsNothing(env1: Collaborators, env2: Collaborators, h: History)
    requires PendingCalls(h) == []
    ensures ToolNode(env1, h) == ToolNode(env2, h) == h
  {
  }

  datatype Route = Continue | End

  /** should_continue: "continue" exactly when the last message carries
      tool calls, "end" for an empty history or a last message without them. */
  function ShouldContinue(h: History): (r: Route)
    ensures r == Continue <==> h != [] && ToolCallsOf(h[|h| - 1]) != []
  {
    if h == [] then End
    else if ToolCallsOf(h[|h| - 1]) != [] then Continue
    else End
  }

  /** The three nodes of the graph. */
  datatype Node = SystemInit | AgentStep | Action

  const EntryNode := SystemInit

  datatype Option<T> = None | Some(value: T)

  /** The update a node returns for the current history. */
  function NodeUpdate(env: Collaborators, n: Node, h: History): seq<Message> {
    match n
    case SystemInit => EnsureSystemPrompt(env, h)
    case AgentStep => AgentNode(env, h)
    case Action => ToolNode(env, h)
  }

  /** The node that runs after `n`, given the merged history; None is END. */
  function Successor(n: Node, h: History): Option<Node> {
    match n
    case SystemInit => Some(AgentStep)
    case Action => Some(AgentStep)
    case AgentStep => if ShouldContinue(h) == Continue then Some(Action) else None
  }

  /** The edges the graph declares. */
  predicate Edge(a: Node, b: Node) {
    (a == SystemInit && b == AgentStep) || (a == AgentStep && b == Action) || (a == Action && b == AgentStep)
  }

  /** Successor follows the declared edges, nothing returns to system_init,
      and the only way out is from the agent node on "end". */
  lemma SuccessorFollowsEdges(n: Node, h: History)
    ensures Successor(n, h).Some? ==> Edge(n, Successor(n, h).value)
    ensures Successor(n, h) == None <==> n == AgentStep && ShouldContinue(h) == End
    ensures Successor(n, h) != Some(SystemInit)
  {
  }

  /** The graph reaches the action node only on "continue", so the tool node
      inside a run always finds tool calls to execute. */
  lemma ActionRunsOnlyWithPendingCalls(n: Node, h: History)
    requires Successor(n, h) == Some(Action)
    ensures n == AgentStep && PendingCalls(h) != []
  {
  }

  /** Under the merge, system_init on a non-empty history keeps the old
      history in front and appends it again (with the prompt before it when
      it was missing): whatever the history began with stays first. */
  lemma SystemInitMergeRepeatsHistory(env: Collaborators, h: History)
    ensures var m := Merge(h, EnsureSystemPrompt(env, h));
      m[..|h|] == h && m[|m| - |h|..] == h
    ensures h != [] ==> Merge(h, EnsureSystemPrompt(env, h))[0] == h[0]
    ensures h == [] ==> Merge(h, EnsureSystemPrompt(env, h)) == [SystemMessage(env.systemPrompt)]
  {
  }

  /** With the history the chat front end starts from, a greeting from the
      assistant followed by the user's question, system_init leaves a merged
      history that does not begin with the system prompt. */
  lemma SystemInitMergeExample(env: Collaborators, greeting: string, question: string)
    ensures var h := [AIMessage(greeting, []), HumanMessage(question)];
      Merge(h, EnsureSystemPrompt(env, h))
        == [AIMessage(greeting, []), HumanMessage(question), SystemMessage(env.systemPrompt),
            AIMessage(greeting, []), HumanMessage(question)]
  {
  }
}
