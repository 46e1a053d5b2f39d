/** The provider-neutral conversation and stream types, and what makes a message list well formed. */
module Llm {
  import opened Text

  datatype ToolCall = ToolCall(id: string, name: string, arguments: string)

  datatype Role = System | User | Assistant | Tool

  datatype Message = Message(role: Role, content: string, toolCalls: Option<seq<ToolCall>>, toolCallId: Option<string>)

  datatype ChatDelta =
    | TextDelta(text: string)
    | ReasoningDelta(thought: string)
    | ToolCallDelta(index: int, id: Option<string>, name: Option<string>, arguments: string)
    | Done(finishReason: string)

  function SystemMessage(content: string): Message { Message(System, content, None, None) }

  function UserMessage(content: string): Message { Message(User, content, None, None) }

  function Reply(content: string): Message { Message(Assistant, content, None, None) }

  function CallMessage(content: string, calls: seq<ToolCall>): Message
  {
    Message(Assistant, content, Some(calls), None)
  }

  function ResultMessage(content: string, id: string): Message { Message(Tool, content, None, Some(id)) }

  /** `m` asks for tools: an assistant message with at least one call. */
  predicate AsksForTools(m: Message)
  {
    m.role == Assistant && m.toolCalls.Some? && m.toolCalls.value != []
  }

  /** `results` answers `calls` one by one, in order, by id. */
  predicate Answers(calls: seq<ToolCall>, results: seq<Message>)
  {
    && |results| == |calls|
    && forall i :: 0 <= i < |calls| ==> results[i].role == Tool && results[i].toolCallId == Some(calls[i].id)
  }

  /** Every request for tools is answered at once and completely, and no result stands alone. */
  predicate Paired(ms: seq<Message>)
    decreases |ms|
  {
    if ms == [] then true
    else if AsksForTools(ms[0]) then
      var n := |ms[0].toolCalls.value|;
      |ms| > n && Answers(ms[0].toolCalls.value, ms[1..n + 1]) && Paired(ms[n + 1..])
    else ms[0].role != Tool && Paired(ms[1..])
  }

  lemma {:induction false} PairedAppend(a: seq<Message>, b: seq<Message>)
    requires Paired(a) && Paired(b)
    ensures Paired(a + b)
    decreases |a|
  {
    hide Answers;
    if a == [] {
      assert a + b == b;
    } else if AsksForTools(a[0]) {
      var n := |a[0].toolCalls.value|;
      PairedAppend(a[n + 1..], b);
      assert (a + b)[1..n + 1] == a[1..n + 1] && (a + b)[n + 1..] == a[n + 1..] + b;
    } else {
      PairedAppend(a[1..], b);
      assert (a + b)[1..] == a[1..] + b;
    }
  }

  predicate AllResults(ms: seq<Message>)
  {
    forall i :: 0 <= i < |ms| ==> ms[i].role == Tool
  }

  /** What a window cut anywhere looks like: tool results severed from their request, then a well-formed list. */
  ghost predicate Windowed(ms: seq<Message>, orphans: nat)
  {
    orphans <= |ms| && AllResults(ms[..orphans]) && Paired(ms[orphans..])
  }

  /** Dropping any number of messages from the front of a well-formed list severs results only at the new front. */
  lemma {:induction false} PairedSuffix(ms: seq<Message>, from: nat) returns (orphans: nat)
    requires Paired(ms) && from <= |ms|
    ensures Windowed(ms[from..], orphans)
    decreases |ms|
  {
    if from == 0 {
      orphans := 0;
      assert ms[0..] == ms && ms[0..][0..] == ms;
    } else {
      var n := if AsksForTools(ms[0]) then |ms[0].toolCalls.value| else 0;
      if from <= n + 1 {
        orphans := n + 1 - from;
        DropDrop(ms, from, orphans);
        ResultsWithin(ms, from, n);
      } else {
        orphans := PairedSuffix(ms[n + 1..], from - (n + 1));
        DropDrop(ms, n + 1, from - (n + 1));
      }
    }
  }

  lemma ResultsWithin(ms: seq<Message>, from: nat, n: nat)
    requires 1 <= from <= n + 1 <= |ms|
    requires n > 0 ==> ms[0].toolCalls.Some? && Answers(ms[0].toolCalls.value, ms[1..n + 1])
    ensures AllResults(ms[from..][..n + 1 - from])
  {
    var w := ms[from..][..n + 1 - from];
    forall i | 0 <= i < |w| ensures w[i].role == Tool {
      assert w[i] == ms[1..n + 1][from - 1 + i];
    }
  }
}
