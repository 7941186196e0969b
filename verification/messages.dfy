/** The conversation log: messages and the reducer of the graph's state.

    The graph state has a single channel, `messages`, whose reducer
    concatenates each node's update onto the log held so far.
 */
module Messages {

  import opened Results

  /** Who produced a message: the user, the language model, or a tool. */
  datatype Role = Human | Ai | ToolRole

  /** One structured tool request emitted by the model. */
  datatype ToolCall = ToolCall(id: string, name: string, args: string)

  /** Message content is either plain text or a list of content parts
      (non-string content, e.g. multi-modal blocks). */
  datatype Content = Text(text: string) | Parts(parts: seq<string>)

  /** A message of the log. `toolCalls` is absent on messages that are not
      model replies; `toolCallId` is set on tool results. */
  datatype Message = Message(
    role: Role,
    content: Content,
    toolCalls: Option<seq<ToolCall>>,
    toolCallId: Option<string>)

  /** The user's turn, as built from the query string. */
  function HumanMessage(query: string): (m: Message)
    ensures m.role == Human && m.content == Text(query)
    ensures !HasToolCalls(m)
  {
    Message(Human, Text(query), None, None)
  }

  /** `tool_calls?.length` is truthy: the list is present and non-empty. */
  predicate HasToolCalls(m: Message)
  {
    m.toolCalls.Some? && |m.toolCalls.value| > 0
  }

  /** The text the router inspects: string content as is, anything else as "". */
  function ContentText(c: Content): string
  {
    match c
    case Text(s) => s
    case Parts(_) => ""
  }

  /** `earlier` is kept unchanged at the front of `log`. */
  predicate IsPrefix(earlier: seq<Message>, log: seq<Message>)
  {
    |earlier| <= |log| && log[..|earlier|] == earlier
  }

  /** The `messages` channel reducer: the update is placed after the existing
      log, nothing is dropped, reordered or rewritten. */
  function Reduce(log: seq<Message>, update: seq<Message>): (r: seq<Message>)
    ensures |r| == |log| + |update|
    ensures IsPrefix(log, r)
    ensures r[|log|..] == update
  {
    log + update
  }

  /** Applying several updates in turn is the same as applying their
      concatenation once; every intermediate log is a prefix of the last. */
  lemma ReduceTwice(log: seq<Message>, u1: seq<Message>, u2: seq<Message>)
    ensures Reduce(Reduce(log, u1), u2) == Reduce(log, u1 + u2)
    ensures IsPrefix(Reduce(log, u1), Reduce(Reduce(log, u1), u2))
  {
    assert log + u1 + u2 == log + (u1 + u2);
  }

  /** Being a prefix is transitive, so a log only ever grows at its end. */
  lemma PrefixTransitive(a: seq<Message>, b: seq<Message>, c: seq<Message>)
    requires IsPrefix(a, b) && IsPrefix(b, c)
    ensures IsPrefix(a, c)
  {
    assert c[..|a|] == c[..|b|][..|a|];
  }
}
