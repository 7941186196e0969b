/** Failure-carrying wrappers shared by the agent model.

    The orchestration code signals failures by throwing; the model makes the
    failures of the model call, the tool node, the router and the step budget
    explicit `Err` values naming what went wrong, so that the catch-all in the
    invocation wrapper becomes an ordinary `match`.
 */
module Results {

  /** A value that may be absent. An oracle answering `None` stands for a
      remote call that rejected (threw) instead of producing a value. */
  datatype Option<+T> = None | Some(value: T)

  /** The ways one invocation of the agent graph can fail. */
  datatype Error =
    | ModelFailed            // the language model call rejected
    | ToolsFailed            // the tool node rejected
    | RecursionLimitReached  // the step budget ran out before the end node
    | EmptyState             // the router read the last message of an empty log
    | UnknownNode(name: string) // the router named a node the graph does not have

  datatype Result<+T> = Ok(value: T) | Err(error: Error)

  /** The failures that can actually surface from a run of the agent graph:
      remote-call rejections and budget exhaustion. */
  predicate Fatal(e: Error)
  {
    e.ModelFailed? || e.ToolsFailed? || e.RecursionLimitReached?
  }
}
