/** `callAgent`: one invocation of the agent graph on a conversation thread.

    The user's query becomes a human message appended to the thread's
    checkpointed history; the graph runs from the start node under the step
    budget; the content of the last message is returned. Every failure,
    budget exhaustion included, is caught and replaced by a fixed apology.
 */
module Agent {

  import opened Results
  import opened Messages
  import opened Graph

  /** The step budget every invocation runs under. */
  const RecursionLimit: nat := 15

  /** The reply returned whenever the invocation throws. */
  const Fallback: string :=
    "Lamento que haya habido un error, ¿puedes intentar reformular su pregunta? Intenta simplificar la pregunta. Gracias."

  /** What an invocation returns to its caller, and the log the thread ends
      with when the run completed (`None` after a failure: what the
      checkpointer holds then is not modelled). */
  datatype Answer = Answer(reply: Content, saved: Option<seq<Message>>)

  /** Runs the graph on `prior` extended by the user's message. */
  function Invoke(model: ModelOracle, tools: ToolOracle, budget: nat, prior: seq<Message>, query: string): (a: Answer)
    ensures a.saved.None? ==> a.reply == Text(Fallback)
    ensures a.saved.Some? ==>
      var log := a.saved.value;
      && |log| >= |prior| + 2
      && IsPrefix(prior, log)
      && log[|prior|] == HumanMessage(query)
      && !HasToolCalls(log[|log| - 1])
      && model(log[..|log| - 1]) == Some(log[|log| - 1])
      && a.reply == log[|log| - 1].content
  {
    var start := Reduce(prior, [HumanMessage(query)]);
    match Run(model, tools, budget, Start, start)
    case Err(_) => Answer(Text(Fallback), None)
    case Ok(f) =>
      FinalReplyIsLast(f.trace);
      FollowsFinalReply(model, tools, start, f.trace);
      PrefixTransitive(prior, start, f.log);
      Answer(f.log[|f.log| - 1].content, Some(f.log))
  }

  /** A failed run of any kind, budget exhaustion included, yields exactly the
      fallback reply; a completed run yields its final reply's content. */
  lemma InvokeOutcome(model: ModelOracle, tools: ToolOracle, budget: nat, prior: seq<Message>, query: string)
    ensures
      var r := Run(model, tools, budget, Start, prior + [HumanMessage(query)]);
      var a := Invoke(model, tools, budget, prior, query);
      && (r.Err? <==> a == Answer(Text(Fallback), None))
      && (r.Ok? ==> && a.saved == Some(r.value.log)
                    && |r.value.trace| > 0
                    && r.value.trace[|r.value.trace| - 1].AgentStep?
                    && a.reply == r.value.trace[|r.value.trace| - 1].reply.content)
  {
    var r := Run(model, tools, budget, Start, prior + [HumanMessage(query)]);
    if r.Ok? {
      FinalReplyIsLast(r.value.trace);
    }
  }

  /** Checkpointed histories, addressed by thread id. */
  type Store = map<string, seq<Message>>

  /** The history of a thread; a thread never seen starts empty. */
  function Load(store: Store, thread: string): seq<Message>
  {
    if thread in store then store[thread] else []
  }

  /** Records a completed invocation's log as the thread's history; other
      threads are untouched. */
  function Commit(store: Store, thread: string, a: Answer): (s: Store)
    requires a.saved.Some?
    ensures Load(s, thread) == a.saved.value
    ensures forall u :: u != thread ==> Load(s, u) == Load(store, u)
  {
    store[thread := a.saved.value]
  }

  /** `callAgent`: one invocation on `thread` with the fixed budget. */
  function CallAgent(model: ModelOracle, tools: ToolOracle, store: Store, thread: string, query: string): (a: Answer)
    ensures a.saved.Some? ==> IsPrefix(Load(store, thread), a.saved.value)
  {
    Invoke(model, tools, RecursionLimit, Load(store, thread), query)
  }

  /** Two completed invocations in turn on one thread: the second one's log
      extends the first one's, with the second query right after it. */
  lemma SuccessiveCallsExtendHistory(
    model: ModelOracle, tools: ToolOracle, store: Store, thread: string, q1: string, q2: string)
    requires CallAgent(model, tools, store, thread, q1).saved.Some?
    requires
      var a1 := CallAgent(model, tools, store, thread, q1);
      CallAgent(model, tools, Commit(store, thread, a1), thread, q2).saved.Some?
    ensures
      var a1 := CallAgent(model, tools, store, thread, q1);
      var a2 := CallAgent(model, tools, Commit(store, thread, a1), thread, q2);
      && IsPrefix(Load(store, thread), a2.saved.value)
      && IsPrefix(a1.saved.value, a2.saved.value)
      && a2.saved.value[|a1.saved.value|] == HumanMessage(q2)
  {
    var a1 := CallAgent(model, tools, store, thread, q1);
    var a2 := CallAgent(model, tools, Commit(store, thread, a1), thread, q2);
    PrefixTransitive(Load(store, thread), a1.saved.value, a2.saved.value);
  }

  /** If the very first model call throws, the caller gets the fallback. */
  lemma FirstModelFailureFallsBack(
    model: ModelOracle, tools: ToolOracle, budget: nat, prior: seq<Message>, query: string)
    requires model(prior + [HumanMessage(query)]).None?
    ensures Invoke(model, tools, budget, prior, query) == Answer(Text(Fallback), None)
  {
    InvokeOutcome(model, tools, budget, prior, query);
  }

  /** A model or tool failure at any later step, reached within the budget
      by steps the oracles answered, makes the invocation end in the fallback. */
  lemma LaterFailureFallsBack(
    model: ModelOracle, tools: ToolOracle, budget: nat, prior: seq<Message>, query: string, t: seq<StepRecord>)
    requires Continues(Agent, t)
    requires Follows(model, tools, prior + [HumanMessage(query)], t)
    requires |t| < budget
    requires !Answers(model, tools, NodeAfter(Agent, t), prior + [HumanMessage(query)] + Outputs(t))
    ensures Invoke(model, tools, budget, prior, query) == Answer(Text(Fallback), None)
  {
    FailureAfterPrefix(model, tools, budget, Agent, prior + [HumanMessage(query)], t);
    InvokeOutcome(model, tools, budget, prior, query);
  }

  /** Oracles that answer along a whole run shape within the budget make the
      invocation save exactly that run's log and return its final reply. */
  lemma CompletedRunAnswers(
    model: ModelOracle, tools: ToolOracle, budget: nat, prior: seq<Message>, query: string, t: seq<StepRecord>)
    requires IsRun(t)
    requires Follows(model, tools, prior + [HumanMessage(query)], t)
    requires |t| <= budget
    ensures
      var a := Invoke(model, tools, budget, prior, query);
      && a.saved == Some(prior + [HumanMessage(query)] + Outputs(t))
      && |t| > 0 && t[|t| - 1].AgentStep?
      && a.reply == t[|t| - 1].reply.content
  {
    var start := prior + [HumanMessage(query)];
    var f := Finished(start + Outputs(t), t);
    RunCompletes(model, tools, budget, start, t);
    InvokeOfCompletedRun(model, tools, budget, prior, query, f);
    FinalReplyIsLast(t);
    assert f.log[|f.log| - 1] == Outputs(t)[|Outputs(t)| - 1];
  }

  /** A completed run makes the invocation save its log and return the
      content of its last message. */
  lemma InvokeOfCompletedRun(
    model: ModelOracle, tools: ToolOracle, budget: nat, prior: seq<Message>, query: string, f: Finished)
    requires Run(model, tools, budget, Agent, prior + [HumanMessage(query)]) == Ok(f)
    ensures
      var a := Invoke(model, tools, budget, prior, query);
      && a.saved == Some(f.log)
      && |f.log| > 0
      && a.reply == f.log[|f.log| - 1].content
  {
  }

  /** Oracles that keep answering with tool requests until the budget is
      spent make the invocation end in the fallback. */
  lemma BudgetExhaustionFallsBack(
    model: ModelOracle, tools: ToolOracle, budget: nat, prior: seq<Message>, query: string, t: seq<StepRecord>)
    requires Continues(Agent, t)
    requires Follows(model, tools, prior + [HumanMessage(query)], t)
    requires |t| == budget
    ensures Invoke(model, tools, budget, prior, query) == Answer(Text(Fallback), None)
  {
    BudgetRunsOut(model, tools, budget, Agent, prior + [HumanMessage(query)], t);
    InvokeOutcome(model, tools, budget, prior, query);
  }

  /** A model that always requests tools makes every invocation end in the
      fallback, whatever the budget. */
  lemma PerpetualToolCallsFallBack(
    model: ModelOracle, tools: ToolOracle, budget: nat, prior: seq<Message>, query: string)
    requires forall h :: model(h).Some? && HasToolCalls(model(h).value)
    requires forall h :: tools(h).Some?
    ensures Invoke(model, tools, budget, prior, query) == Answer(Text(Fallback), None)
  {
    PerpetualToolCallsExhaustBudget(model, tools, budget, prior + [HumanMessage(query)]);
    InvokeOutcome(model, tools, budget, prior, query);
  }

  /** A model that never requests tools answers in one step: the log gains
      the user's message and the reply, and the reply's content is returned. */
  lemma ToolFreeModelAnswersDirectly(
    model: ModelOracle, tools: ToolOracle, budget: nat, prior: seq<Message>, query: string)
    requires forall h :: model(h).Some? && !HasToolCalls(model(h).value)
    requires budget >= 1
    ensures
      var start := prior + [HumanMessage(query)];
      var reply := model(start).value;
      Invoke(model, tools, budget, prior, query) == Answer(reply.content, Some(start + [reply]))
  {
    var start := prior + [HumanMessage(query)];
    ToolFreeModelStopsAtOnce(model, tools, budget, start);
  }

  /** A model that asks for one web search and answers once a tool result is
      the last message. */
  function SearchingModel(request: Message, final: Message): ModelOracle
  {
    (h: seq<Message>) => if |h| > 0 && h[|h| - 1].role == ToolRole then Some(final) else Some(request)
  }

  /** One tool round trip under the fixed budget: a reply requesting tools,
      the tool results, then a reply without requests that ends the run. */
  lemma OneToolRoundTrip(
    model: ModelOracle, tools: ToolOracle, log: seq<Message>,
    request: Message, results: seq<Message>, final: Message)
    requires model(log) == Some(request) && HasToolCalls(request)
    requires tools(log + [request]) == Some(results)
    requires model(log + [request] + results) == Some(final) && !HasToolCalls(final)
    ensures Run(model, tools, RecursionLimit, Start, log)
         == Ok(Finished(log + [request] + results + [final],
                        [AgentStep(request), ToolsStep(results), AgentStep(final)]))
  {
    var l1 := log + [request];
    var l3 := l1 + results;
    var l4 := l3 + [final];
    AgentStepEnds(model, tools, 13, l3);
    PrependStep(model, tools, 14, Tools, l1, ToolsStep(results), Finished(l4, [AgentStep(final)]));
    PrependStep(model, tools, 15, Agent, log, AgentStep(request),
                Finished(l4, [ToolsStep(results)] + [AgentStep(final)]));
    ThreeSteps(AgentStep(request), ToolsStep(results), AgentStep(final));
  }

  /** Sequence-display identity for a three-step trace. */
  lemma ThreeSteps(a: StepRecord, b: StepRecord, c: StepRecord)
    ensures [a] + ([b] + [c]) == [a, b, c]
  {
  }

  /** A tool node that answers every request with the same result. */
  function FixedTool(result: Message): ToolOracle
  {
    (h: seq<Message>) => Some([result])
  }

  /** Oracle unfolding: what the scripted model and tool answer along the
      worked conversation. */
  lemma SearchOracles(query: string, request: Message, result: Message, final: Message)
    requires result.role == ToolRole && request.role == Ai
    ensures
      var l1 := [HumanMessage(query)];
      && SearchingModel(request, final)(l1) == Some(request)
      && FixedTool(result)(l1 + [request]) == Some([result])
      && SearchingModel(request, final)(l1 + [request] + [result]) == Some(final)
  {
  }

  /** Sequence-display identity for the four-message log of the worked
      conversation. */
  lemma FourMessages(a: Message, b: Message, c: Message, d: Message)
    ensures [a] + [b] + [c] + [d] == [a, b, c, d]
  {
  }

  /** A worked conversation on a fresh thread: the reply requests a search,
      the tool answers, the next reply carries no request and is returned;
      the thread's log is then user, request, tool result, final reply. */
  lemma SearchConversation(query: string, request: Message, result: Message, final: Message)
    requires HasToolCalls(request) && !HasToolCalls(final)
    requires result.role == ToolRole && request.role == Ai
    ensures
      CallAgent(SearchingModel(request, final), FixedTool(result), map[], "t1", query)
      == Answer(final.content, Some([HumanMessage(query), request, result, final]))
  {
    var model := SearchingModel(request, final);
    var tools := FixedTool(result);
    var l1 := [HumanMessage(query)];
    var l4 := [HumanMessage(query), request, result, final];
    var trace := [AgentStep(request), ToolsStep([result]), AgentStep(final)];
    assert Run(model, tools, RecursionLimit, Start, l1) == Ok(Finished(l4, trace)) by {
      SearchOracles(query, request, result, final);
      OneToolRoundTrip(model, tools, l1, request, [result], final);
      FourMessages(HumanMessage(query), request, result, final);
    }
    assert Invoke(model, tools, RecursionLimit, [], query) == Answer(final.content, Some(l4)) by {
      InvokeOutcome(model, tools, RecursionLimit, [], query);
      assert [] + [HumanMessage(query)] == l1;
    }
    assert Load(map[], "t1") == [];
  }
}
