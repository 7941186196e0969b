/** The conditional edge out of the agent node (`shouldContinue`).

    The router looks only at the last message of the log. A non-empty list of
    tool requests sends control to the tool node; anything else ends the run.
    The upper-cased "FINAL ANSWER" prefix test of `shouldContinue` is kept as
    written: both of its outcomes lead to the end node.
 */
module Router {

  import opened Results
  import opened Messages

  /** Route names returned to the graph. */
  const ToolsRoute: string := "tools"
  const EndRoute: string := "__end__"

  /** The textual marker the router tests for; it has no effect on the route. */
  const FinalAnswerMarker: string := "FINAL ANSWER"

  /** ASCII upper-casing of one character. */
  function UpperChar(c: char): (u: char)
    ensures 'a' <= c <= 'z' ==> 'A' <= u <= 'Z'
    ensures !('a' <= c <= 'z') ==> u == c
  {
    if 'a' <= c <= 'z' then (c as int - 'a' as int + 'A' as int) as char else c
  }

  /** ASCII upper-casing of a string: no lower-case letter is left, every
      lower-case letter becomes its capital, and every other character is
      kept in place. */
  function Upper(s: string): (u: string)
    ensures |u| == |s|
    ensures forall i :: 0 <= i < |u| ==> !('a' <= u[i] <= 'z')
    ensures forall i :: 0 <= i < |s| && 'a' <= s[i] <= 'z' ==> u[i] as int == s[i] as int - 32
    ensures forall i :: 0 <= i < |s| && !('a' <= s[i] <= 'z') ==> u[i] == s[i]
  {
    seq(|s|, i requires 0 <= i < |s| => UpperChar(s[i]))
  }

  /** Upper-casing twice is upper-casing once. */
  lemma UpperIdempotent(s: string)
    ensures Upper(Upper(s)) == Upper(s)
  {
  }

  predicate StartsWith(s: string, prefix: string)
  {
    |prefix| <= |s| && s[..|prefix|] == prefix
  }

  /** `shouldContinue`: reads the last message (on an empty log the
      TypeScript code reads a field of `undefined`, which throws), extracts
      its text, and picks the route. */
  function ShouldContinue(log: seq<Message>): (r: Result<string>)
    ensures r.Err? <==> |log| == 0
    ensures r.Err? ==> r.error == EmptyState
    ensures r.Ok? ==> r.value == ToolsRoute || r.value == EndRoute
    ensures r == Ok(ToolsRoute) <==> |log| > 0 && HasToolCalls(log[|log| - 1])
    ensures r == Ok(EndRoute) <==> |log| > 0 && !HasToolCalls(log[|log| - 1])
  {
    if |log| == 0 then Err(EmptyState)
    else
      var last := log[|log| - 1];
      var content := ContentText(last.content);
      if HasToolCalls(last) then Ok(ToolsRoute)
      else if StartsWith(Upper(content), FinalAnswerMarker) then Ok(EndRoute)
      else Ok(EndRoute)
  }

  /** The route never depends on the content of the last message, nor on
      anything before it: two logs whose last messages carry the same tool
      requests are routed alike, whatever their text says. */
  lemma RouteIgnoresContent(log1: seq<Message>, log2: seq<Message>)
    requires |log1| > 0 && |log2| > 0
    requires log1[|log1| - 1].toolCalls == log2[|log2| - 1].toolCalls
    ensures ShouldContinue(log1) == ShouldContinue(log2)
  {
  }

  /** The "FINAL ANSWER" branch is dead: a tool-free reply ends the run
      whether or not its upper-cased text starts with the marker, and also
      when its content is not a string. */
  lemma FinalAnswerMarkerIsDead(log: seq<Message>, text: string, parts: seq<string>)
    requires |log| > 0 && !HasToolCalls(log[|log| - 1])
    ensures StartsWith(Upper(text), FinalAnswerMarker) ==>
      ShouldContinue(log[|log| - 1 := log[|log| - 1].(content := Text(text))]) == Ok(EndRoute)
    ensures !StartsWith(Upper(text), FinalAnswerMarker) ==>
      ShouldContinue(log[|log| - 1 := log[|log| - 1].(content := Text(text))]) == Ok(EndRoute)
    ensures ShouldContinue(log[|log| - 1 := log[|log| - 1].(content := Parts(parts))]) == Ok(EndRoute)
  {
  }
}
