# Agent orchestration loop — a Dafny model

This project models `callAgent` in `agent.ts`. That function is a small LangGraph
state machine. It drives a language model and a web-search tool in a loop over an
append-only conversation log, and it runs under a step budget.

- `Results` (`results.dfy`): `Option`, `Result` and the error kinds. A failing
  model call, a failing tool node, the router's read of an empty log and budget
  exhaustion become `Err` values; checkpoint and setup failures are not modelled
  (see "Left out").
- `Messages` (`messages.dfy`): the message entity and the reducer of the
  `messages` channel, which appends each update to the log.
- `Router` (`router.dfy`): `shouldContinue`, which picks the route after the agent
  node from the last message. The "FINAL ANSWER" test is kept as written.
- `Graph` (`graph.dfy`): the nodes, the edges `__start__ → agent`,
  `agent → shouldContinue` and `tools → agent`, one node step, and `Run`.
  `Run` is a fuel-bounded recursive execution. It records a trace of the steps
  it executed, and lemmas state the trace's shape.
- `Agent` (`agent.dfy`): the invocation wrapper. It appends the user's message to
  the thread's history, runs the graph under the budget of 15, returns the
  content of the last message, and maps every failure to the fixed fallback reply.
  Checkpointed histories are modelled as a map from thread id to log.

The language model and the tool node are oracles passed as function parameters.
The model oracle maps the log to one reply, and the tool oracle maps the log to
the messages the tool node emits. `None` stands for a call that threw.

The router returns route names only, and the wrapper reads the content of the
last message itself. The "FINAL ANSWER" prefix test in `shouldContinue` is kept,
and both of its outcomes end the run. What the checkpointer holds for a thread
after a failed run is library behaviour, so the model claims nothing about it.

## Model

| member | source | states |
|---|---|---|
| Messages.Reduce | agent.ts:27-31 | The reducer keeps the old log as an unchanged prefix, places the update right after it, and makes the length the sum of both lengths. |
| Messages.ReduceTwice | agent.ts:29 | Reducing two updates in turn equals reducing their concatenation once, and the intermediate log is a prefix of the final one. |
| Messages.HumanMessage | agent.ts:104 | The invocation input is a user-role message with the query as text and no tool requests. |
| Router.Upper | agent.ts:57 | Upper-casing keeps the length, leaves no lower-case ASCII letter, turns each lower-case letter into its capital and keeps every other character in place. |
| Router.UpperIdempotent | agent.ts:57 | Upper-casing an upper-cased string changes nothing. |
| Router.ShouldContinue | agent.ts:46-62 | The result is "tools" if and only if the last message has a non-empty tool-call list, and "__end__" if and only if it has none. An empty log is an error, because reading the last message would throw. |
| Router.RouteIgnoresContent | agent.ts:50-61 | Two logs whose last messages carry the same tool calls are routed identically, whatever their content or earlier messages. |
| Router.FinalAnswerMarkerIsDead | agent.ts:57-61 | Without tool calls the route is "__end__" whether or not the upper-cased text starts with "FINAL ANSWER", and also when the content is not a string. |
| Graph.NodeNamed | agent.ts:92-95 | A resolved route name names that node and never the start node. An unresolved name is the name of no destination node. |
| Graph.NodeNameRoundTrip | agent.ts:92-95 | Every destination node is resolved back from its own name. |
| Graph.CallModel | agent.ts:86-87 | The agent node's update holds exactly one message, the model's reply. A rejected model call is a model failure. |
| Graph.Step | agent.ts:86-93 | A step succeeds exactly when the oracle of its node answers, and then records exactly that answer: the model's reply for the agent, the tool oracle's messages for the tools node. An agent step appends just the reply to the log. A failure is reported as that node's error kind. |
| Graph.Successor | agent.ts:94-96 | The start and tools nodes always lead to agent. The agent leads to tools exactly when the last message requests tools, and to the end node exactly when it does not. |
| Graph.Advance | agent.ts:91-96 | One executed node succeeds exactly when its oracle answers. It yields that answer as its contribution, and the next node follows the edges above: tools after a reply with tool calls, the end node after one without, agent after tools. A failure is the node's error kind. |
| Graph.Run | agent.ts:102-107 | A successful run's final log is the initial log followed by every step's output. Every recorded step is what the oracle of its node answered on the log built so far. It takes at most `fuel` steps. From the start or agent node its trace has the shape agent, (tools, agent)*, and from tools it is a tools step followed by such a run. Every failure is a remote-call failure or budget exhaustion. |
| Graph.ExtendRun | agent.ts:94-96 | Prepending the step that followed an edge to a well-shaped remaining trace keeps the run shape. |
| Graph.RunAlternates | agent.ts:94-96 | A run alternates strictly: agent steps sit at even positions and tools steps at odd ones. Every reply but the last requests tools, and the last is an agent reply without requests. |
| Graph.ToolsStepsMatchToolCalls | agent.ts:94-96 | The number of tools steps equals the number of replies that carried tool calls, and agent steps outnumber tools steps by one. |
| Graph.FinalReplyIsLast | agent.ts:109 | The last message a run appends is its final reply, and that reply carries no tool calls. |
| Graph.RunCompletes | agent.ts:91-107 | Whenever the oracles answer along a run shape (agent, then tools after each reply with tool requests, ending at the first reply without) that fits in the budget, the run completes with exactly that trace, and the final log is the initial log followed by its outputs. |
| Graph.BudgetRunsOut | agent.ts:106 | If the oracles keep answering with tool requests for as many steps as the budget allows, the run fails with the recursion-limit error. |
| Graph.FailureAfterPrefix | agent.ts:91-107 | After any number of non-final steps the oracles answered within the budget, a node whose oracle throws fails the whole run with that node's error. |
| Graph.FollowsFinalReply | agent.ts:86-87 | In a trace the oracles produced that ends with a reply, the last message of the log is the model's answer to everything before it. |
| Graph.PerpetualToolCallsExhaustBudget | agent.ts:106 | If the model always requests tools and the tools never fail, the run ends in the recursion-limit error for every budget. It never continues past the budget. |
| Graph.AgentStepEnds | agent.ts:91-96 | An agent reply without tool calls ends the run after exactly one step, and the log gains just that reply. |
| Graph.AgentToolsRoundTrip | agent.ts:91-96 | A reply with tool calls is followed by the tools step, and control returns to the agent with the log extended by both outputs. |
| Graph.ToolFreeModelStopsAtOnce | agent.ts:94-95 | A model that never requests tools is called exactly once, and its reply ends the run. |
| Agent.Invoke | agent.ts:102-116 | On success the saved log starts with the prior history, followed by the user's message and at least one reply. The last message is the model's answer to the log before it, it carries no tool calls, and the reply returned is its content. On failure the reply is the fixed fallback string. |
| Agent.InvokeOutcome | agent.ts:109-116 | The run fails, budget exhaustion included, exactly when the answer is the fallback with nothing saved. On success the answer is the final reply's content and the run's log. |
| Agent.Commit | agent.ts:98-100 | After saving, the thread's history is the completed log, and every other thread's history is unchanged. |
| Agent.CallAgent | agent.ts:102-107 | A completed call's log extends the thread's stored history. |
| Agent.SuccessiveCallsExtendHistory | agent.ts:102-106 | Two completed calls in turn on one thread: the second log extends both the stored history and the first log, and the second query follows the first log immediately. |
| Agent.FirstModelFailureFallsBack | agent.ts:113-116 | If the first model call throws, the caller gets exactly the fallback string. |
| Agent.CompletedRunAnswers | agent.ts:102-112 | When the oracles answer along a run shape within the budget, the invocation saves the prior history, the user's message and that run's outputs, and returns the content of the run's final reply. |
| Agent.BudgetExhaustionFallsBack | agent.ts:102-116 | When the oracles keep requesting tools until the budget is spent, the caller gets exactly the fallback string. |
| Agent.LaterFailureFallsBack | agent.ts:86-116 | A model or tool call that throws at any later step, reached within the budget by answered non-final steps, makes the caller get exactly the fallback string. |
| Agent.PerpetualToolCallsFallBack | agent.ts:102-116 | A model that always requests tools makes the invocation return the fallback for every budget. |
| Agent.ToolFreeModelAnswersDirectly | agent.ts:102-112 | A model without tool requests answers in one step. The log gains the user message and the reply, and the reply's content is returned. |
| Agent.OneToolRoundTrip | agent.ts:91-96 | Under the budget of 15, a reply with requests, the tool results and a final reply make a run of three steps, and the log gains exactly those messages. |
| Agent.SearchConversation | agent.ts:91-112 | On a fresh thread, a scripted model that searches once and then answers makes the call return the final reply's content. The saved log is then user, request, tool result, final reply. |

## Left out

- Prompt construction (agent.ts:65-84), with its system text, tool-name list and ISO timestamp, is folded into the model oracle. It is string formatting against the wall clock.
- The OpenAI model and the Tavily search tool (agent.ts:33-44) are oracles. They are foreign network calls.
- How `ToolNode` dispatches requests and formats results is library code that is not shown here. The tool oracle returns an arbitrary message list, so the roles and `tool_call_id` links of tool results are not constrained.
- The budget is an abstract `fuel` parameter, and each executed node costs one unit. LangGraph's exact recursion-limit counting is library behaviour, so no count of agent/tools pairs is claimed for the value 15.
- `MongoDBSaver` checkpointing (agent.ts:98-100) is a map from thread id to log, written only after a completed run. When intermediate checkpoints are written, and what a thread holds after a failure, is library behaviour.
- Router.Upper: models `toUpperCase` on ASCII letters only, not full Unicode case mapping. The branch it feeds cannot change the route.
- Failures of the checkpointer (loading or saving a thread in MongoDB) and of graph construction (agent.ts:91-100) are also caught by the catch-all (agent.ts:113-116) and return the fallback. The store is a total map here, so these failures are not error kinds of the model.
- Console logging (agent.ts:111, 114) is not modelled, because it has no effect on results.
- `index.ts` is not part of this model: its HTTP routes, CORS, account storage, thread-id generation from the clock and process exit are I/O plumbing.
- Concurrent invocations on one thread are not modelled. The code performs no locking of its own.
