/** The agent graph: two working nodes ("agent", "tools") between the start
    and end pseudo-nodes, wired as start -> agent, agent -> router,
    tools -> agent, and run under a step budget.

    The language model and the tool node are oracles: total functions from
    the log they are handed to their result, `None` meaning the call threw.
 */
module Graph {

  import opened Results
  import opened Messages
  import opened Router

  datatype Node = Start | Agent | Tools | End

  /** The names the graph is built with. */
  function NodeName(n: Node): string
  {
    match n
    case Start => "__start__"
    case Agent => "agent"
    case Tools => "tools"
    case End => "__end__"
  }

  /** Resolves a name returned by a conditional edge to a destination node.
      The start pseudo-node is never a destination. */
  function NodeNamed(name: string): (r: Option<Node>)
    ensures r.Some? ==> r.value != Start && NodeName(r.value) == name
    ensures r.None? ==> forall n: Node :: n != Start ==> NodeName(n) != name
  {
    if name == "agent" then Some(Agent)
    else if name == "tools" then Some(Tools)
    else if name == "__end__" then Some(End)
    else None
  }

  /** Every destination node is found again from its own name. */
  lemma NodeNameRoundTrip(n: Node)
    requires n != Start
    ensures NodeNamed(NodeName(n)) == Some(n)
  {
  }

  /** The language model: the log (wrapped in the prompt, which is not
      modelled) to one reply, or `None` when the call throws. */
  type ModelOracle = seq<Message> -> Option<Message>

  /** The tool node: the log to the tool-result messages it emits, or `None`
      when it throws. */
  type ToolOracle = seq<Message> -> Option<seq<Message>>

  /** What one executed node contributed. */
  datatype StepRecord = AgentStep(reply: Message) | ToolsStep(results: seq<Message>)

  function Output(s: StepRecord): seq<Message>
  {
    match s
    case AgentStep(m) => [m]
    case ToolsStep(ms) => ms
  }

  /** All messages contributed by a sequence of steps, in order. */
  function Outputs(t: seq<StepRecord>): seq<Message>
  {
    if |t| == 0 then [] else Output(t[0]) + Outputs(t[1..])
  }

  /** `callModel`: the update is exactly one message, the model's reply. */
  function CallModel(model: ModelOracle, log: seq<Message>): (r: Result<seq<Message>>)
    ensures r.Ok? <==> model(log).Some?
    ensures r.Ok? ==> |r.value| == 1 && r.value[0] == model(log).value
    ensures r.Err? ==> r.error == ModelFailed
  {
    match model(log)
    case None => Err(ModelFailed)
    case Some(m) => Ok([m])
  }

  /** The oracle behind a working node answers on `log`. */
  predicate Answers(model: ModelOracle, tools: ToolOracle, node: Node, log: seq<Message>)
  {
    if node == Agent then model(log).Some? else tools(log).Some?
  }

  /** The error a working node fails with when its oracle does not answer. */
  function NodeError(node: Node): Error
  {
    if node == Agent then ModelFailed else ToolsFailed
  }

  /** `rec` is what the oracles answer on `log`: a reply of the model or the
      results of the tool node. */
  predicate Recorded(model: ModelOracle, tools: ToolOracle, rec: StepRecord, log: seq<Message>)
  {
    match rec
    case AgentStep(m) => model(log) == Some(m)
    case ToolsStep(ms) => tools(log) == Some(ms)
  }

  /** Runs one working node on the log. */
  function Step(model: ModelOracle, tools: ToolOracle, node: Node, log: seq<Message>): (r: Result<StepRecord>)
    requires node == Agent || node == Tools
    ensures r.Ok? <==> Answers(model, tools, node, log)
    ensures r.Ok? ==> (node == Agent <==> r.value.AgentStep?) && Recorded(model, tools, r.value, log)
    ensures r.Ok? && node == Agent ==> Reduce(log, Output(r.value)) == log + [model(log).value]
    ensures r.Err? ==> r.error == NodeError(node)
  {
    if node == Agent then
      match CallModel(model, log)
      case Err(e) => Err(e)
      case Ok(update) => Ok(AgentStep(update[0]))
    else
      match tools(log)
      case None => Err(ToolsFailed)
      case Some(ms) => Ok(ToolsStep(ms))
  }

  /** The edges of the graph: where control goes after `node` has run and
      left `log` behind. */
  function Successor(node: Node, log: seq<Message>): (r: Result<Node>)
    requires node != End
    ensures node != Agent ==> r == Ok(Agent)
    ensures node == Agent && |log| > 0 ==> r.Ok? && (r.value == Tools || r.value == End)
    ensures r == Ok(Tools) <==> node == Agent && |log| > 0 && HasToolCalls(log[|log| - 1])
    ensures r == Ok(End) <==> node == Agent && |log| > 0 && !HasToolCalls(log[|log| - 1])
  {
    match node
    case Start => Ok(Agent)
    case Tools => Ok(Agent)
    case Agent =>
      match ShouldContinue(log)
      case Err(e) => Err(e)
      case Ok(name) =>
        match NodeNamed(name)
        case None => Err(UnknownNode(name))
        case Some(n) => Ok(n)
  }

  /** The shape of every successful run from the agent node:
      agent, (tools, agent)*, with tools exactly after replies that carry
      tool requests and the run ending after the first reply that does not. */
  predicate IsRun(t: seq<StepRecord>)
  {
    && |t| >= 1
    && t[0].AgentStep?
    && if HasToolCalls(t[0].reply) then |t| >= 3 && t[1].ToolsStep? && IsRun(t[2..])
       else |t| == 1
  }

  /** Every step of `t`, taken in turn from `log`, is what the oracles answer
      on the log accumulated so far. */
  predicate Follows(model: ModelOracle, tools: ToolOracle, log: seq<Message>, t: seq<StepRecord>)
    decreases |t|
  {
    |t| == 0 ||
    (Recorded(model, tools, t[0], log) && Follows(model, tools, log + Output(t[0]), t[1..]))
  }

  /** What executing one working node yields: its contribution and the node
      the edges lead to next. */
  datatype Move = Move(rec: StepRecord, next: Node)

  /** Executes `node` and follows the outgoing edge on the reduced log. */
  function Advance(model: ModelOracle, tools: ToolOracle, node: Node, log: seq<Message>): (r: Result<Move>)
    requires node == Agent || node == Tools
    ensures r.Ok? <==> Answers(model, tools, node, log)
    ensures r.Err? ==> r.error == NodeError(node)
    ensures r.Ok? && node == Agent ==>
      && model(log).Some?
      && r.value.rec == AgentStep(model(log).value)
      && (r.value.next == Tools <==> HasToolCalls(model(log).value))
      && (r.value.next == End <==> !HasToolCalls(model(log).value))
    ensures r.Ok? && node == Tools ==>
      && tools(log).Some?
      && r.value.rec == ToolsStep(tools(log).value)
      && r.value.next == Agent
  {
    match Step(model, tools, node, log)
    case Err(e) => Err(e)
    case Ok(rec) =>
      var log' := Reduce(log, Output(rec));
      assert node == Agent ==> log'[|log'| - 1] == rec.reply;
      match Successor(node, log')
      case Err(e) => Err(e)
      case Ok(next) => Ok(Move(rec, next))
  }

  /** A finished run: the final log and the steps that built it. */
  datatype Finished = Finished(log: seq<Message>, trace: seq<StepRecord>)

  /** Runs the graph from `node` on `log`, every executed node consuming one
      unit of `fuel`; running out of fuel before the end node is a failure. */
  function Run(model: ModelOracle, tools: ToolOracle, fuel: nat, node: Node, log: seq<Message>): (r: Result<Finished>)
    ensures r.Err? ==> Fatal(r.error)
    ensures r.Ok? ==> r.value.log == log + Outputs(r.value.trace)
    ensures r.Ok? ==> |r.value.trace| <= fuel
    ensures r.Ok? ==> Follows(model, tools, log, r.value.trace)
    ensures r.Ok? && node in {Start, Agent} ==> IsRun(r.value.trace)
    ensures r.Ok? && node == Tools ==>
      |r.value.trace| >= 2 && r.value.trace[0].ToolsStep? && IsRun(r.value.trace[1..])
    ensures r.Ok? && node == End ==> r.value.trace == []
    decreases fuel, if node == Start then 1 else 0
  {
    match node
    case End => Ok(Finished(log, []))
    case Start => Run(model, tools, fuel, Agent, log)
    case _ =>
      if fuel == 0 then Err(RecursionLimitReached)
      else
        match Advance(model, tools, node, log)
        case Err(e) => Err(e)
        case Ok(mv) =>
          match Run(model, tools, fuel - 1, mv.next, Reduce(log, Output(mv.rec)))
          case Err(e) => Err(e)
          case Ok(f) =>
            ReduceThenOutputs(log, mv.rec, f.trace);
            ExtendRun(node, mv.rec, mv.next, f.trace);
            FollowsCons(model, tools, log, mv.rec, f.trace);
            Ok(Finished(f.log, [mv.rec] + f.trace))
  }

  /** One working node's step of a run: a failing node fails the run with
      its error; otherwise the rest of the run continues from the next node
      on the reduced log, and its trace is prefixed by the step. */
  lemma RunStep(model: ModelOracle, tools: ToolOracle, fuel: nat, node: Node, log: seq<Message>)
    requires node == Agent || node == Tools
    requires fuel >= 1
    ensures !Answers(model, tools, node, log) ==> Run(model, tools, fuel, node, log) == Err(NodeError(node))
    ensures Answers(model, tools, node, log) ==>
      var mv := Advance(model, tools, node, log).value;
      var rest := Run(model, tools, fuel - 1, mv.next, Reduce(log, Output(mv.rec)));
      Run(model, tools, fuel, node, log)
        == (if rest.Err? then rest else Ok(Finished(rest.value.log, [mv.rec] + rest.value.trace)))
  {
  }

  /** The log after one step and the rest of a run is the log before it
      followed by everything the whole run contributed. */
  lemma ReduceThenOutputs(log: seq<Message>, rec: StepRecord, t: seq<StepRecord>)
    ensures Reduce(log, Output(rec)) + Outputs(t) == log + Outputs([rec] + t)
  {
    assert ([rec] + t)[1..] == t;
    assert Outputs([rec] + t) == Output(rec) + Outputs(t);
    assert log + Output(rec) + Outputs(t) == log + (Output(rec) + Outputs(t));
  }

  /** Prepending a step the oracles answered keeps a trace following them. */
  lemma FollowsCons(model: ModelOracle, tools: ToolOracle, log: seq<Message>, rec: StepRecord, t: seq<StepRecord>)
    requires Recorded(model, tools, rec, log)
    requires Follows(model, tools, Reduce(log, Output(rec)), t)
    ensures Follows(model, tools, log, [rec] + t)
  {
    assert ([rec] + t)[1..] == t;
  }

  /** Prepending the step that led from `node` to `next` keeps the run shape. */
  lemma ExtendRun(node: Node, rec: StepRecord, next: Node, t: seq<StepRecord>)
    requires node == Agent ==> rec.AgentStep? && (next == Tools <==> HasToolCalls(rec.reply))
                               && (next == End <==> !HasToolCalls(rec.reply))
    requires node == Tools ==> rec.ToolsStep? && next == Agent
    requires next in {Start, Agent} ==> IsRun(t)
    requires next == Tools ==> |t| >= 2 && t[0].ToolsStep? && IsRun(t[1..])
    requires next == End ==> t == []
    requires node == Agent || node == Tools
    ensures node == Agent ==> IsRun([rec] + t)
    ensures node == Tools ==> |[rec] + t| >= 2 && ([rec] + t)[0].ToolsStep? && IsRun(([rec] + t)[1..])
  {
    var t' := [rec] + t;
    assert t'[1..] == t;
    if node == Agent && next == Tools {
      assert t'[2..] == t[1..];
    }
  }

  /** Number of tool-node steps in a trace. */
  function ToolsSteps(t: seq<StepRecord>): nat
  {
    if |t| == 0 then 0 else (if t[0].ToolsStep? then 1 else 0) + ToolsSteps(t[1..])
  }

  /** Number of model replies in a trace that carried tool requests. */
  function ToolCallingReplies(t: seq<StepRecord>): nat
  {
    if |t| == 0 then 0
    else (if t[0].AgentStep? && HasToolCalls(t[0].reply) then 1 else 0) + ToolCallingReplies(t[1..])
  }

  /** A run alternates strictly: agent steps at even positions, tool steps at
      odd ones, every reply but the last requests tools and the last does not. */
  lemma {:induction false} RunAlternates(t: seq<StepRecord>)
    requires IsRun(t)
    ensures |t| % 2 == 1
    ensures forall i :: 0 <= i < |t| ==> (t[i].AgentStep? <==> i % 2 == 0)
    ensures forall i :: 0 <= i < |t| - 1 && t[i].AgentStep? ==> HasToolCalls(t[i].reply)
    ensures t[|t| - 1].AgentStep? && !HasToolCalls(t[|t| - 1].reply)
    decreases |t|
  {
    if HasToolCalls(t[0].reply) {
      var rest := t[2..];
      RunAlternates(rest);
      forall i | 2 <= i < |t|
        ensures t[i] == rest[i - 2]
      {
      }
    }
  }

  /** There are exactly as many tool steps as replies that requested tools,
      and one more agent step than tool steps. */
  lemma {:induction false} ToolsStepsMatchToolCalls(t: seq<StepRecord>)
    requires IsRun(t)
    ensures ToolsSteps(t) == ToolCallingReplies(t)
    ensures |t| == 2 * ToolsSteps(t) + 1
    decreases |t|
  {
    if HasToolCalls(t[0].reply) {
      ToolsStepsMatchToolCalls(t[2..]);
      assert t[1..][1..] == t[2..];
    } else {
      assert t[1..] == [];
    }
  }

  /** The last message a run leaves in the log is its final reply, the one
      without tool requests. */
  lemma {:induction false} FinalReplyIsLast(t: seq<StepRecord>)
    requires IsRun(t)
    ensures |Outputs(t)| > 0 && t[|t| - 1].AgentStep?
    ensures Outputs(t)[|Outputs(t)| - 1] == t[|t| - 1].reply
    ensures !HasToolCalls(Outputs(t)[|Outputs(t)| - 1])
    decreases |t|
  {
    if HasToolCalls(t[0].reply) {
      var rest := t[2..];
      FinalReplyIsLast(rest);
      assert t[1..][1..] == rest;
      assert Outputs(t) == [t[0].reply] + (t[1].results + Outputs(rest));
      assert t[|t| - 1] == rest[|rest| - 1];
    } else {
      assert Outputs(t) == [t[0].reply];
    }
  }

  /** A model that never stops requesting tools, with tools that never fail,
      exhausts any budget: the run fails with the recursion-limit error and
      never loops on. */
  lemma PerpetualToolCallsExhaustBudget(
    model: ModelOracle, tools: ToolOracle, fuel: nat, log: seq<Message>)
    requires forall h :: model(h).Some? && HasToolCalls(model(h).value)
    requires forall h :: tools(h).Some?
    ensures Run(model, tools, fuel, Start, log) == Err(RecursionLimitReached)
  {
    PerpetualFrom(model, tools, fuel, Agent, log);
  }

  /** The induction behind the lemma above, from a working node. */
  lemma {:induction false} PerpetualFrom(
    model: ModelOracle, tools: ToolOracle, fuel: nat, node: Node, log: seq<Message>)
    requires forall h :: model(h).Some? && HasToolCalls(model(h).value)
    requires forall h :: tools(h).Some?
    requires node == Agent || node == Tools
    ensures Run(model, tools, fuel, node, log) == Err(RecursionLimitReached)
    decreases fuel
  {
    if fuel > 0 {
      RunStep(model, tools, fuel, node, log);
      if node == Agent {
        var m := model(log).value;
        assert Advance(model, tools, Agent, log) == Ok(Move(AgentStep(m), Tools));
        PerpetualFrom(model, tools, fuel - 1, Tools, Reduce(log, [m]));
      } else {
        var ms := tools(log).value;
        assert Advance(model, tools, Tools, log) == Ok(Move(ToolsStep(ms), Agent));
        PerpetualFrom(model, tools, fuel - 1, Agent, Reduce(log, ms));
      }
    }
  }

  /** A model that never requests tools is called exactly once and its reply
      closes the run. */
  lemma ToolFreeModelStopsAtOnce(model: ModelOracle, tools: ToolOracle, fuel: nat, log: seq<Message>)
    requires forall h :: model(h).Some? && !HasToolCalls(model(h).value)
    requires fuel >= 1
    ensures Run(model, tools, fuel, Start, log)
         == Ok(Finished(log + [model(log).value], [AgentStep(model(log).value)]))
  {
    AgentStepEnds(model, tools, fuel, log);
  }

  /** One agent step whose reply carries no tool request ends the run. */
  lemma AgentStepEnds(model: ModelOracle, tools: ToolOracle, fuel: nat, log: seq<Message>)
    requires fuel >= 1
    requires model(log).Some? && !HasToolCalls(model(log).value)
    ensures Run(model, tools, fuel, Agent, log)
         == Ok(Finished(log + [model(log).value], [AgentStep(model(log).value)]))
  {
    var m := model(log).value;
    var log' := log + [m];
    assert Step(model, tools, Agent, log) == Ok(AgentStep(m));
    assert Reduce(log, Output(AgentStep(m))) == log';
    assert Successor(Agent, log') == Ok(End);
    assert Run(model, tools, fuel - 1, End, log') == Ok(Finished(log', []));
    assert [AgentStep(m)] + [] == [AgentStep(m)];
  }

  /** An agent step whose reply requests tools, followed by the tool step,
      hands the extended log back to the agent with two units less. */
  lemma AgentToolsRoundTrip(model: ModelOracle, tools: ToolOracle, fuel: nat, log: seq<Message>)
    requires fuel >= 2
    requires model(log).Some? && HasToolCalls(model(log).value)
    requires tools(log + [model(log).value]).Some?
    ensures
      var m := model(log).value;
      var ms := tools(log + [m]).value;
      var rest := Run(model, tools, fuel - 2, Agent, log + [m] + ms);
      && (rest.Err? ==> Run(model, tools, fuel, Agent, log) == rest)
      && (rest.Ok? ==> Run(model, tools, fuel, Agent, log)
                       == Ok(Finished(rest.value.log, [AgentStep(m), ToolsStep(ms)] + rest.value.trace)))
  {
    var m := model(log).value;
    var l1 := log + [m];
    var ms := tools(l1).value;
    assert Step(model, tools, Agent, log) == Ok(AgentStep(m));
    assert Reduce(log, Output(AgentStep(m))) == l1;
    assert Successor(Agent, l1) == Ok(Tools);
    assert Step(model, tools, Tools, l1) == Ok(ToolsStep(ms));
    assert Reduce(l1, Output(ToolsStep(ms))) == l1 + ms;
    var rest := Run(model, tools, fuel - 2, Agent, l1 + ms);
    if rest.Ok? {
      assert [AgentStep(m)] + ([ToolsStep(ms)] + rest.value.trace)
          == [AgentStep(m), ToolsStep(ms)] + rest.value.trace;
    }
  }

  /** The working node the edges lead to from `node` while the run goes on. */
  function Other(node: Node): Node
    requires node == Agent || node == Tools
  {
    if node == Agent then Tools else Agent
  }

  /** `t` is a legal sequence of steps from `node` that has not reached the
      end node: node kinds alternate and every reply in it requests tools. */
  predicate Continues(node: Node, t: seq<StepRecord>)
    requires node == Agent || node == Tools
    decreases |t|
  {
    |t| == 0 ||
    (&& (node == Agent <==> t[0].AgentStep?)
     && (t[0].AgentStep? ==> HasToolCalls(t[0].reply))
     && Continues(Other(node), t[1..]))
  }

  /** The node that runs next after the steps of `t`, taken from `node`. */
  function NodeAfter(node: Node, t: seq<StepRecord>): (n: Node)
    requires node == Agent || node == Tools
    ensures n == Agent || n == Tools
    decreases |t|
  {
    if |t| == 0 then node else NodeAfter(Other(node), t[1..])
  }

  /** A node whose oracle throws fails the whole run, however many steps the
      oracles answered before it, as long as the budget has not run out: the
      run returns that node's error and nothing else. */
  lemma {:induction false} FailureAfterPrefix(
    model: ModelOracle, tools: ToolOracle, fuel: nat, node: Node, log: seq<Message>, t: seq<StepRecord>)
    requires node == Agent || node == Tools
    requires Continues(node, t) && Follows(model, tools, log, t)
    requires |t| < fuel
    requires !Answers(model, tools, NodeAfter(node, t), log + Outputs(t))
    ensures Run(model, tools, fuel, node, log) == Err(NodeError(NodeAfter(node, t)))
    decreases |t|
  {
    if |t| == 0 {
      assert log + Outputs(t) == log;
      FailingNodeFails(model, tools, fuel, node, log);
    } else {
      PrefixStep(node, log, t);
      FailureAfterPrefix(model, tools, fuel - 1, Other(node), log + Output(t[0]), t[1..]);
      PrependErr(model, tools, fuel, node, log, t[0], NodeError(NodeAfter(node, t)));
    }
  }

  /** A working node whose oracle throws fails the run with its error. */
  lemma FailingNodeFails(model: ModelOracle, tools: ToolOracle, fuel: nat, node: Node, log: seq<Message>)
    requires node == Agent || node == Tools
    requires fuel >= 1
    requires !Answers(model, tools, node, log)
    ensures Run(model, tools, fuel, node, log) == Err(NodeError(node))
  {
    RunStep(model, tools, fuel, node, log);
  }

  /** A failure of the rest of a run, after a step the oracles answered
      without ending the run, is the failure of the whole run. */
  lemma PrependErr(
    model: ModelOracle, tools: ToolOracle, fuel: nat, node: Node, log: seq<Message>, rec: StepRecord, e: Error)
    requires node == Agent || node == Tools
    requires fuel >= 1
    requires node == Agent <==> rec.AgentStep?
    requires rec.AgentStep? ==> HasToolCalls(rec.reply)
    requires Recorded(model, tools, rec, log)
    requires Run(model, tools, fuel - 1, Other(node), log + Output(rec)) == Err(e)
    ensures Run(model, tools, fuel, node, log) == Err(e)
  {
    ContinueStep(model, tools, fuel, node, log, rec);
  }

  /** Oracles that keep answering with tool requests until the budget is
      spent make the run fail with the recursion-limit error. */
  lemma {:induction false} BudgetRunsOut(
    model: ModelOracle, tools: ToolOracle, fuel: nat, node: Node, log: seq<Message>, t: seq<StepRecord>)
    requires node == Agent || node == Tools
    requires Continues(node, t) && Follows(model, tools, log, t)
    requires |t| == fuel
    ensures Run(model, tools, fuel, node, log) == Err(RecursionLimitReached)
    decreases |t|
  {
    if |t| > 0 {
      BudgetRunsOut(model, tools, fuel - 1, Other(node), log + Output(t[0]), t[1..]);
      PrependErr(model, tools, fuel, node, log, t[0], RecursionLimitReached);
    }
  }

  /** Every run shape the oracles answer within the budget is the run the
      graph executes: it completes with exactly that trace and its outputs. */
  lemma {:induction false} RunCompletes(
    model: ModelOracle, tools: ToolOracle, fuel: nat, log: seq<Message>, t: seq<StepRecord>)
    requires IsRun(t) && Follows(model, tools, log, t)
    requires |t| <= fuel
    ensures Run(model, tools, fuel, Agent, log) == Ok(Finished(log + Outputs(t), t))
    decreases |t|
  {
    if HasToolCalls(t[0].reply) {
      var l2 := log + [t[0].reply] + t[1].results;
      FollowsRoundTrip(model, tools, log, t);
      RunCompletes(model, tools, fuel - 2, l2, t[2..]);
      RoundTripCompletes(model, tools, fuel, log, t);
    } else {
      SingleReplyCompletes(model, tools, fuel, log, t);
    }
  }

  /** A run shape that opens with a round trip: the oracles answered the
      request and the tool step, and they answer the rest of the run. */
  lemma FollowsRoundTrip(model: ModelOracle, tools: ToolOracle, log: seq<Message>, t: seq<StepRecord>)
    requires IsRun(t) && Follows(model, tools, log, t)
    requires HasToolCalls(t[0].reply)
    ensures |t| >= 3 && t[1].ToolsStep?
    ensures model(log) == Some(t[0].reply)
    ensures tools(log + [t[0].reply]) == Some(t[1].results)
    ensures IsRun(t[2..]) && Follows(model, tools, log + [t[0].reply] + t[1].results, t[2..])
  {
    assert t[1..][1..] == t[2..];
  }

  /** A round trip of the agent and the tools nodes, followed by a completed
      run, is a completed run from the agent node. */
  lemma RoundTripCompletes(model: ModelOracle, tools: ToolOracle, fuel: nat, log: seq<Message>, t: seq<StepRecord>)
    requires fuel >= 2 && |t| >= 2 && t[0].AgentStep? && t[1].ToolsStep?
    requires model(log) == Some(t[0].reply) && HasToolCalls(t[0].reply)
    requires tools(log + [t[0].reply]) == Some(t[1].results)
    requires
      var l2 := log + [t[0].reply] + t[1].results;
      Run(model, tools, fuel - 2, Agent, l2) == Ok(Finished(l2 + Outputs(t[2..]), t[2..]))
    ensures Run(model, tools, fuel, Agent, log) == Ok(Finished(log + Outputs(t), t))
  {
    var m := t[0].reply;
    var ms := t[1].results;
    var rest := t[2..];
    AgentToolsRoundTrip(model, tools, fuel, log);
    assert t == [AgentStep(m), ToolsStep(ms)] + rest;
    assert t[1..][1..] == rest;
    assert Outputs(t) == [m] + (ms + Outputs(rest));
    assert log + [m] + ms + Outputs(rest) == log + Outputs(t);
  }

  /** A run shape of one tool-free reply the model gave completes at once. */
  lemma SingleReplyCompletes(model: ModelOracle, tools: ToolOracle, fuel: nat, log: seq<Message>, t: seq<StepRecord>)
    requires IsRun(t) && Follows(model, tools, log, t)
    requires |t| <= fuel
    requires !HasToolCalls(t[0].reply)
    ensures Run(model, tools, fuel, Agent, log) == Ok(Finished(log + Outputs(t), t))
  {
    var m := t[0].reply;
    AgentStepEnds(model, tools, fuel, log);
    assert t == [AgentStep(m)];
    assert Outputs(t) == [m] + Outputs(t[1..]);
  }

  /** A step the oracles answered, and that does not end the run, moves
      control to the other working node. */
  lemma AdvanceContinues(model: ModelOracle, tools: ToolOracle, node: Node, log: seq<Message>, rec: StepRecord)
    requires node == Agent || node == Tools
    requires node == Agent <==> rec.AgentStep?
    requires rec.AgentStep? ==> HasToolCalls(rec.reply)
    requires Recorded(model, tools, rec, log)
    ensures Advance(model, tools, node, log) == Ok(Move(rec, Other(node)))
  {
  }

  /** After a step the oracles answered without ending the run, a run from
      `node` is the run from the other working node, prefixed by that step. */
  lemma ContinueStep(
    model: ModelOracle, tools: ToolOracle, fuel: nat, node: Node, log: seq<Message>, rec: StepRecord)
    requires node == Agent || node == Tools
    requires fuel >= 1
    requires node == Agent <==> rec.AgentStep?
    requires rec.AgentStep? ==> HasToolCalls(rec.reply)
    requires Recorded(model, tools, rec, log)
    ensures
      var rest := Run(model, tools, fuel - 1, Other(node), log + Output(rec));
      Run(model, tools, fuel, node, log)
        == (if rest.Err? then rest else Ok(Finished(rest.value.log, [rec] + rest.value.trace)))
  {
    AdvanceContinues(model, tools, node, log, rec);
    RunStep(model, tools, fuel, node, log);
  }

  /** A completed run from the other working node, prefixed by a step the
      oracles answered without ending the run, is a completed run from `node`. */
  lemma PrependStep(
    model: ModelOracle, tools: ToolOracle, fuel: nat, node: Node, log: seq<Message>, rec: StepRecord, f: Finished)
    requires node == Agent || node == Tools
    requires fuel >= 1
    requires node == Agent <==> rec.AgentStep?
    requires rec.AgentStep? ==> HasToolCalls(rec.reply)
    requires Recorded(model, tools, rec, log)
    requires Run(model, tools, fuel - 1, Other(node), log + Output(rec)) == Ok(f)
    ensures Run(model, tools, fuel, node, log) == Ok(Finished(f.log, [rec] + f.trace))
  {
    ContinueStep(model, tools, fuel, node, log, rec);
  }

  /** Taking the first step of a non-empty prefix leaves the same next node
      and the same log at its end. */
  lemma PrefixStep(node: Node, log: seq<Message>, t: seq<StepRecord>)
    requires node == Agent || node == Tools
    requires |t| > 0
    ensures NodeAfter(Other(node), t[1..]) == NodeAfter(node, t)
    ensures log + Output(t[0]) + Outputs(t[1..]) == log + Outputs(t)
  {
    assert Outputs(t) == Output(t[0]) + Outputs(t[1..]);
  }

  /** The last message of a trace the oracles produced, ending in a reply, is
      the model's answer to the log that precedes it. */
  lemma {:induction false} FollowsFinalReply(
    model: ModelOracle, tools: ToolOracle, log: seq<Message>, t: seq<StepRecord>)
    requires Follows(model, tools, log, t)
    requires |t| > 0 && t[|t| - 1].AgentStep?
    ensures
      var full := log + Outputs(t);
      |full| > 0 && model(full[..|full| - 1]) == Some(full[|full| - 1])
    decreases |t|
  {
    var log' := log + Output(t[0]);
    if |t| == 1 {
      assert Outputs(t) == Output(t[0]) + Outputs(t[1..]);
      assert log + Outputs(t) == log + [t[0].reply];
      assert (log + [t[0].reply])[..|log|] == log;
    } else {
      FollowsFinalReply(model, tools, log', t[1..]);
      assert t[1..][|t[1..]| - 1] == t[|t| - 1];
      assert log' + Outputs(t[1..]) == log + Outputs(t);
    }
  }
}
