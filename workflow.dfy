/** Running the compiled agent graph (agent.py:225-255) under a step budget,
    and the LoggedWorkflow.stream wrapper (agent.py:259-273). Each step runs
    one node on the current history, records the node's output, merges its
    update into the history, and follows the graph's edges to the next node. */
module Workflow {
  import opened Agent

  /** A compiled graph over the three nodes: the function bound to each node
      by add_node. Its edges are the agent graph's, Successor. */
  datatype Graph = Graph(run: (Node, History) -> seq<Message>)

  /** The graph agent.py builds: system_init, agent and action bound to
      ensure_system_prompt, agent and logged_tool_node. */
  function AgentGraph(env: Collaborators): Graph {
    Graph((n, h) => NodeUpdate(env, n, h))
  }

  /** How a run ends: END reached, or the step budget exhausted (LangGraph's
      recursion limit, which the caller receives as an error). */
  datatype Status = Done | Aborted

  /** One streamed output: the node that ran and the update it returned. */
  datatype StepOutput = StepOutput(node: Node, update: seq<Message>)

  datatype RunResult = RunResult(status: Status, history: History, trace: seq<StepOutput>)

  /** All updates of a trace, concatenated in order. */
  function Updates(trace: seq<StepOutput>): seq<Message> {
    if trace == [] then [] else trace[0].update + Updates(trace[1..])
  }

  /** Number of agent-node steps, i.e. of chat-model invocations. */
  function ModelCalls(trace: seq<StepOutput>): nat {
    if trace == [] then 0 else (if trace[0].node == AgentStep then 1 else 0) + ModelCalls(trace[1..])
  }

  /** What graph g does when node n is next to run on history h, with
      `budget` node executions left. */
  function Exec(g: Graph, n: Node, h: History, budget: nat): (r: RunResult)
    ensures |r.trace| <= budget
    ensures r.status == Aborted ==> |r.trace| == budget
    decreases budget
  {
    if budget == 0 then RunResult(Aborted, h, [])
    else
      var update := g.run(n, h);
      var merged := Merge(h, update);
      var step := StepOutput(n, update);
      match Successor(n, merged)
      case None => RunResult(Done, merged, [step])
      case Some(m) =>
        var rest := Exec(g, m, merged, budget - 1);
        RunResult(rest.status, rest.history, [step] + rest.trace)
  }

  /** Exec from a point where the next node may be END. */
  function ExecAt(g: Graph, at: Option<Node>, h: History, budget: nat): RunResult {
    if at.None? then RunResult(Done, h, []) else Exec(g, at.value, h, budget)
  }

  /** One step of Exec, seen from a point where the next node is known. */
  lemma ExecAtStep(g: Graph, n: Node, h: History, budget: nat)
    requires budget > 0
    ensures var update := g.run(n, h);
      var merged := Merge(h, update);
      var rest := ExecAt(g, Successor(n, merged), merged, budget - 1);
      ExecAt(g, Some(n), h, budget) == RunResult(rest.status, rest.history, [StepOutput(n, update)] + rest.trace)
  {
    var update := g.run(n, h);
    if Successor(n, Merge(h, update)).None? {
      assert [StepOutput(n, update)] + [] == [StepOutput(n, update)];
    }
  }

  /** The graph run from its entry point: the loop LangGraph drives, one node
      per iteration, until END or the budget runs out. */
  method Run(g: Graph, input: History, limit: nat) returns (r: RunResult)
    ensures r == Exec(g, EntryNode, input, limit)
  {
    var at: Option<Node> := Some(EntryNode);
    var h := input;
    var trace: seq<StepOutput> := [];
    var steps := 0;
    while at.Some? && steps < limit
      invariant 0 <= steps <= limit
      invariant var rest := ExecAt(g, at, h, limit - steps);
        Exec(g, EntryNode, input, limit) == RunResult(rest.status, rest.history, trace + rest.trace)
      decreases limit - steps
    {
      var n := at.value;
      var update := g.run(n, h);
      ExecAtStep(g, n, h, limit - steps);
      ghost var rest := ExecAt(g, Successor(n, Merge(h, update)), Merge(h, update), limit - steps - 1);
      assert trace + [StepOutput(n, update)] + rest.trace == trace + ([StepOutput(n, update)] + rest.trace);
      trace := trace + [StepOutput(n, update)];
      h := Merge(h, update);
      at := Successor(n, h);
      steps := steps + 1;
    }
    assert trace + [] == trace;
    r := RunResult(if at.None? then Done else Aborted, h, trace);
  }

  /** LoggedWorkflow.stream: passes every output of the underlying stream on,
      in order and unchanged, counting them. */
  method Stream(outputs: seq<StepOutput>) returns (yielded: seq<StepOutput>, stepCount: nat)
    ensures yielded == outputs
    ensures stepCount == |outputs|
  {
    yielded, stepCount := [], 0;
    for i := 0 to |outputs|
      invariant yielded == outputs[..i]
      invariant stepCount == i
    {
      stepCount := stepCount + 1;
      yielded := yielded + [outputs[i]];
    }
  }

  /** Streaming a run of the agent graph yields its trace, counts what it
      yields, and ends as the run does: normally, or (Aborted) with the
      recursion-limit error the underlying stream raises after its last output,
      which the wrapper passes on. */
  method StreamRun(env: Collaborators, input: History, limit: nat)
    returns (yielded: seq<StepOutput>, stepCount: nat, status: Status)
    ensures yielded == Exec(AgentGraph(env), EntryNode, input, limit).trace
    ensures status == Exec(AgentGraph(env), EntryNode, input, limit).status
    ensures stepCount == |yielded| && stepCount <= limit
    ensures status == Aborted ==> stepCount == limit
  {
    var r := Run(AgentGraph(env), input, limit);
    yielded, stepCount := Stream(r.trace);
    status := r.status;
  }

  lemma UpdatesCons(step: StepOutput, rest: seq<StepOutput>)
    ensures Updates([step] + rest) == step.update + Updates(rest)
  {
    assert ([step] + rest)[0] == step && ([step] + rest)[1..] == rest;
  }

  /** One step of ExecHistory: the history after the first step, extended by
      the updates of the rest of the trace. */
  lemma HistoryStep(h: History, step: StepOutput, rest: RunResult, merged: History)
    requires merged == Merge(h, step.update)
    requires rest.history == merged + Updates(rest.trace)
    ensures rest.history == h + Updates([step] + rest.trace)
  {
    UpdatesCons(step, rest.trace);
    assert h + step.update + Updates(rest.trace) == h + (step.update + Updates(rest.trace));
  }

  /** The history a run leaves is the history it started from followed by
      every update of its trace, in order: nothing is dropped or reordered. */
  lemma {:induction false} ExecHistory(g: Graph, n: Node, h: History, budget: nat)
    ensures var r := Exec(g, n, h, budget); r.history == h + Updates(r.trace)
    decreases budget
  {
    if budget > 0 {
      var update := g.run(n, h);
      var merged := Merge(h, update);
      var step := StepOutput(n, update);
      var next := Successor(n, merged);
      if next.None? {
        UpdatesCons(step, []);
      } else {
        ExecHistory(g, next.value, merged, budget - 1);
        HistoryStep(h, step, Exec(g, next.value, merged, budget - 1), merged);
      }
    }
  }

  /** Consecutive steps of a trace follow the declared edges, and the trace
      starts at the node the run started from. */
  lemma {:induction false} TraceFollowsEdges(g: Graph, n: Node, h: History, budget: nat)
    ensures var t := Exec(g, n, h, budget).trace;
      (budget > 0 ==> t != [] && t[0].node == n)
      && forall i :: 0 <= i < |t| - 1 ==> Edge(t[i].node, t[i + 1].node)
    decreases budget
  {
    if budget > 0 {
      var merged := Merge(h, g.run(n, h));
      var next := Successor(n, merged);
      SuccessorFollowsEdges(n, merged);
      if next.Some? {
        TraceFollowsEdges(g, next.value, merged, budget - 1);
        var rest := Exec(g, next.value, merged, budget - 1).trace;
        var t := Exec(g, n, h, budget).trace;
        assert t == [StepOutput(n, g.run(n, h))] + rest;
        forall i | 0 <= i < |t| - 1 ensures Edge(t[i].node, t[i + 1].node) {
          if i > 0 {
            assert t[i] == rest[i - 1] && t[i + 1] == rest[i];
          }
        }
      }
    }
  }

  /** The agent node of g answers with exactly one AI message. */
  ghost predicate RepliesOnce(g: Graph) {
    forall h :: |g.run(AgentStep, h)| == 1 && g.run(AgentStep, h)[0].AIMessage?
  }

  lemma AgentGraphRepliesOnce(env: Collaborators)
    ensures RepliesOnce(AgentGraph(env))
  {
    forall h ensures |AgentGraph(env).run(AgentStep, h)| == 1 && AgentGraph(env).run(AgentStep, h)[0].AIMessage? {
      assert AgentGraph(env).run(AgentStep, h) == AgentNode(env, h);
    }
  }

  lemma LastOfCons(step: StepOutput, rest: seq<StepOutput>)
    requires rest != []
    ensures ([step] + rest)[|rest|] == rest[|rest| - 1]
  {
  }

  /** The graph stops only after an agent step, and then the last message of
      the merged history is the model's reply, without tool calls. */
  lemma FinalStep(g: Graph, n: Node, h: History)
    requires RepliesOnce(g)
    requires Successor(n, Merge(h, g.run(n, h))).None?
    ensures var merged := Merge(h, g.run(n, h));
      && n == AgentStep && merged != []
      && merged[|merged| - 1].AIMessage? && ToolCallsOf(merged[|merged| - 1]) == []
  {
    var merged := Merge(h, g.run(n, h));
    SuccessorFollowsEdges(n, merged);
    assert merged[|merged| - 1] == g.run(n, h)[0];
  }

  /** A run that ends normally ends on an agent step whose reply, the last
      message of the history, asks for no tools. */
  lemma {:induction false} DoneEndsWithAnswer(g: Graph, n: Node, h: History, budget: nat)
    requires RepliesOnce(g)
    requires Exec(g, n, h, budget).status == Done
    ensures var r := Exec(g, n, h, budget);
      && r.trace != [] && r.trace[|r.trace| - 1].node == AgentStep
      && r.history != [] && r.history[|r.history| - 1].AIMessage?
      && ToolCallsOf(r.history[|r.history| - 1]) == []
    decreases budget
  {
    var update := g.run(n, h);
    var merged := Merge(h, update);
    var next := Successor(n, merged);
    if next.None? {
      FinalStep(g, n, h);
    } else {
      DoneEndsWithAnswer(g, next.value, merged, budget - 1);
      var rest := Exec(g, next.value, merged, budget - 1);
      LastOfCons(StepOutput(n, update), rest.trace);
    }
  }

  /** Running a node of the agent graph runs that node's function. */
  lemma AgentGraphRuns(env: Collaborators, n: Node, h: History)
    ensures AgentGraph(env).run(n, h) == NodeUpdate(env, n, h)
  {
  }

  /** The shape of every run of a graph whose agent node replies with one AI
      message: the entry node runs first and never again, on the input
      history; every step after it follows a declared edge; a normal end
      comes from the agent node with a reply that asks for no tools; the
      final history is the input followed by every update in order. */
  lemma GraphRunShape(g: Graph, input: History, limit: nat)
    requires RepliesOnce(g)
    ensures var r := Exec(g, EntryNode, input, limit);
      && (limit > 0 ==> r.trace[0] == StepOutput(SystemInit, g.run(SystemInit, input)))
      && (forall i :: 0 < i < |r.trace| ==> r.trace[i].node != SystemInit)
      && (forall i :: 0 <= i < |r.trace| - 1 ==> Edge(r.trace[i].node, r.trace[i + 1].node))
      && (r.status == Done ==> r.history != [] && ToolCallsOf(r.history[|r.history| - 1]) == [])
      && r.history == input + Updates(r.trace)
      && |r.trace| <= limit
  {
    var r := Exec(g, EntryNode, input, limit);
    TraceFollowsEdges(g, EntryNode, input, limit);
    ExecHistory(g, EntryNode, input, limit);
    if r.status == Done {
      DoneEndsWithAnswer(g, EntryNode, input, limit);
    }
    forall i | 0 < i < |r.trace| ensures r.trace[i].node != SystemInit {
      assert Edge(r.trace[i - 1].node, r.trace[i].node);
    }
  }

  /** The same for the graph agent.py builds, whose first step is
      ensure_system_prompt on the input history. */
  lemma RunShape(env: Collaborators, input: History, limit: nat)
    ensures var r := Exec(AgentGraph(env), EntryNode, input, limit);
      && (limit > 0 ==> r.trace[0] == StepOutput(SystemInit, EnsureSystemPrompt(env, input)))
      && (forall i :: 0 < i < |r.trace| ==> r.trace[i].node != SystemInit)
      && (forall i :: 0 <= i < |r.trace| - 1 ==> Edge(r.trace[i].node, r.trace[i + 1].node))
      && (r.status == Done ==> r.history != [] && ToolCallsOf(r.history[|r.history| - 1]) == [])
      && r.history == input + Updates(r.trace)
      && |r.trace| <= limit
  {
    AgentGraphRepliesOnce(env);
    GraphRunShape(AgentGraph(env), input, limit);
    AgentGraphRuns(env, SystemInit, input);
  }

  /** An agent step whose reply asks for no tools ends the run at once. */
  lemma AnswerEndsRun(g: Graph, h: History, budget: nat)
    requires budget > 0
    requires |g.run(AgentStep, h)| == 1 && ToolCallsOf(g.run(AgentStep, h)[0]) == []
    ensures Exec(g, AgentStep, h, budget) == RunResult(Done, Merge(h, g.run(AgentStep, h)), [StepOutput(AgentStep, g.run(AgentStep, h))])
  {
    var merged := Merge(h, g.run(AgentStep, h));
    assert merged[|merged| - 1] == g.run(AgentStep, h)[0];
  }

  /** The agent node of g answers with one message that asks for no tools. */
  ghost predicate NeverCallsTools(g: Graph) {
    forall h :: |g.run(AgentStep, h)| == 1 && ToolCallsOf(g.run(AgentStep, h)[0]) == []
  }

  /** When the agent node never asks for tools, a run from the entry point is
      system_init then one agent step, and ends normally. */
  lemma AnswerFirstEndsRun(g: Graph, input: History, limit: nat)
    requires NeverCallsTools(g)
    requires limit >= 2
    ensures var r := Exec(g, EntryNode, input, limit);
      r.status == Done && |r.trace| == 2 && r.trace[1].node == AgentStep && ModelCalls(r.trace) == 1
  {
    var h1 := Merge(input, g.run(SystemInit, input));
    AnswerEndsRun(g, h1, limit - 1);
    var second := Exec(g, AgentStep, h1, limit - 1);
    var r := Exec(g, EntryNode, input, limit);
    assert r.trace == [StepOutput(SystemInit, g.run(SystemInit, input))] + second.trace;
    assert r.trace[1..] == second.trace && second.trace[1..] == [];
    assert ModelCalls(second.trace) == 1;
  }

  lemma AgentGraphAnswers(env: Collaborators)
    requires forall g :: env.model(g).toolCalls == []
    ensures NeverCallsTools(AgentGraph(env))
  {
    var g := AgentGraph(env);
    forall h ensures |g.run(AgentStep, h)| == 1 && ToolCallsOf(g.run(AgentStep, h)[0]) == [] {
      assert g.run(AgentStep, h) == AgentNode(env, h);
    }
  }

  /** A model that never asks for tools answers in one agent turn: the run
      is system_init then agent, and ends normally. */
  lemma ToolFreeModelAnswersOnce(env: Collaborators, input: History, limit: nat)
    requires forall g :: env.model(g).toolCalls == []
    requires limit >= 2
    ensures var r := Exec(AgentGraph(env), EntryNode, input, limit);
      r.status == Done && |r.trace| == 2 && r.trace[1].node == AgentStep && ModelCalls(r.trace) == 1
  {
    AgentGraphAnswers(env);
    AnswerFirstEndsRun(AgentGraph(env), input, limit);
  }

  /** The agent node of g always asks for at least one tool. */
  ghost predicate AlwaysCallsTools(g: Graph) {
    forall h :: |g.run(AgentStep, h)| == 1 && ToolCallsOf(g.run(AgentStep, h)[0]) != []
  }

  /** When the agent node always asks for tools the loop never ends: the run
      is aborted after exactly `budget` steps, of which every other one is an
      agent step. Counted from an agent step or an action step. */
  lemma {:induction false} ToolHungryLoop(g: Graph, n: Node, h: History, budget: nat)
    requires AlwaysCallsTools(g)
    requires n != SystemInit
    ensures var r := Exec(g, n, h, budget);
      r.status == Aborted && |r.trace| == budget
      && ModelCalls(r.trace) == (if n == AgentStep then (budget + 1) / 2 else budget / 2)
    decreases budget
  {
    if budget > 0 {
      var update := g.run(n, h);
      var merged := Merge(h, update);
      var m := if n == AgentStep then Action else AgentStep;
      if n == AgentStep {
        assert merged[|merged| - 1] == update[0];
      }
      assert Successor(n, merged) == Some(m);
      ToolHungryLoop(g, m, merged, budget - 1);
      var rest := Exec(g, m, merged, budget - 1);
      var t := Exec(g, n, h, budget).trace;
      assert t == [StepOutput(n, update)] + rest.trace;
      assert t[1..] == rest.trace;
    }
  }

  lemma AgentGraphCallsTools(env: Collaborators)
    requires forall g :: env.model(g).toolCalls != []
    ensures AlwaysCallsTools(AgentGraph(env))
  {
    var g := AgentGraph(env);
    forall h ensures |g.run(AgentStep, h)| == 1 && ToolCallsOf(g.run(AgentStep, h)[0]) != [] {
      assert g.run(AgentStep, h) == AgentNode(env, h);
    }
  }

  /** When the agent node always asks for tools, a run from the entry point
      exhausts the budget, with an agent step at every odd position. */
  lemma HungryRunAborts(g: Graph, input: History, limit: nat)
    requires AlwaysCallsTools(g)
    ensures var r := Exec(g, EntryNode, input, limit);
      r.status == Aborted && |r.trace| == limit && ModelCalls(r.trace) == limit / 2
  {
    if limit > 0 {
      var merged := Merge(input, g.run(SystemInit, input));
      ToolHungryLoop(g, AgentStep, merged, limit - 1);
      var rest := Exec(g, AgentStep, merged, limit - 1);
      var t := Exec(g, EntryNode, input, limit).trace;
      assert t == [StepOutput(SystemInit, g.run(SystemInit, input))] + rest.trace;
      assert t[1..] == rest.trace;
    }
  }

  /** A model that always asks for tools exhausts the budget: the run is
      aborted after `limit` steps and invokes the model limit / 2 times. */
  lemma ToolHungryModelAborts(env: Collaborators, input: History, limit: nat)
    requires forall g :: env.model(g).toolCalls != []
    ensures var r := Exec(AgentGraph(env), EntryNode, input, limit);
      r.status == Aborted && |r.trace| == limit && ModelCalls(r.trace) == limit / 2
  {
    AgentGraphCallsTools(env);
    HungryRunAborts(AgentGraph(env), input, limit);
  }
}
