/** One conversation turn: the provider stream, the bounded tool loop, and the events it emits. */
module Orchestrator {
  import opened Text
  import opened Llm

  const MAX_TOOL_ITERATIONS := 5

  /**
   * One provider call: whether its first delta arrived in time, everything it yields, and whether it
   * then raises. Tools answer by round and position in the round. Both are arbitrary.
   */
  datatype Stream = Stream(arrives: bool, deltas: seq<ChatDelta>, raises: bool)

  datatype ToolResult = ToolResult(ok: bool, content: string)

  datatype World = World(provider: nat -> Stream, tools: (nat, nat) -> ToolResult)

  datatype Status = Running | Succeeded | Failed

  datatype OrchEvent =
    | OrchText(text: string)
    | OrchStatus(tool: string, status: Status)
    | OrchDone(text: string, finishReason: string, newMessages: seq<Message>)

  datatype TurnEnd = Final(rounds: nat) | TimedOut(rounds: nat) | LoopExceeded | ProviderFailed(rounds: nat)

  datatype Phrases = Phrases(timeout: string, exceeded: string)

  // ---------- what a delta stream amounts to ----------

  datatype Fragment = Fragment(id: Option<string>, name: Option<string>, arguments: string)

  datatype Partial = Partial(id: string, name: string, arguments: string)

  /** The text pieces of a stream, in order; reasoning is not among them. */
  function TextsOf(ds: seq<ChatDelta>): seq<string>
  {
    if ds == [] then []
    else
      var last := ds[|ds| - 1];
      TextsOf(ds[..|ds| - 1]) + if last.TextDelta? then [last.text] else []
  }

  function Extended(fs: seq<Fragment>, d: ChatDelta, index: int): seq<Fragment>
  {
    if d.ToolCallDelta? && d.index == index then fs + [Fragment(d.id, d.name, d.arguments)] else fs
  }

  /** The fragments of the tool call with the given index, in order. */
  function Fragments(ds: seq<ChatDelta>, index: int): seq<Fragment>
  {
    if ds == [] then [] else Extended(Fragments(ds[..|ds| - 1], index), ds[|ds| - 1], index)
  }

  function Indices(ds: seq<ChatDelta>): set<int>
  {
    set d | d in ds && d.ToolCallDelta? :: d.index
  }

  /** The last `finish_reason`, `stop` when there is none. */
  function FinishReason(ds: seq<ChatDelta>): string
  {
    if ds == [] then "stop"
    else if ds[|ds| - 1].Done? then ds[|ds| - 1].finishReason
    else FinishReason(ds[..|ds| - 1])
  }

  /** The last non-empty value, empty when there is none. */
  function LastNonEmpty(values: seq<Option<string>>): string
  {
    if values == [] then ""
    else
      var later := LastNonEmpty(values[1..]);
      if later == "" && values[0].Some? then values[0].value else later
  }

  function Ids(fs: seq<Fragment>): seq<Option<string>> { seq(|fs|, i requires 0 <= i < |fs| => fs[i].id) }

  function Names(fs: seq<Fragment>): seq<Option<string>> { seq(|fs|, i requires 0 <= i < |fs| => fs[i].name) }

  function Pieces(fs: seq<Fragment>): seq<string> { seq(|fs|, i requires 0 <= i < |fs| => fs[i].arguments) }

  /** Id and name are the last non-empty ones, the arguments are put end to end. */
  function Assembled(fs: seq<Fragment>): Partial
  {
    Partial(LastNonEmpty(Ids(fs)), LastNonEmpty(Names(fs)), Concat(Pieces(fs)))
  }

  /** Digits of an index, as in an f-string. */
  function Decimal(n: int): string
    decreases n < 0, if n < 0 then -n else n
  {
    if n < 0 then "-" + Decimal(-n)
    else if n < 10 then ["0123456789"[n]]
    else Decimal(n / 10) + ["0123456789"[n % 10]]
  }

  function Finished(p: Partial, index: int): ToolCall
  {
    ToolCall(if p.id != "" then p.id else "call_" + Decimal(index), p.name, p.arguments)
  }

  /** The tool calls a stream asks for: one per index, ascending, each from its own fragments only. */
  function CallsOf(ds: seq<ChatDelta>): (calls: seq<ToolCall>)
    ensures calls == [] <==> Indices(ds) == {}
  {
    var order := Sorted(Indices(ds));
    seq(|order|, k requires 0 <= k < |order| => Finished(Assembled(Fragments(ds, order[k])), order[k]))
  }

  predicate TimesOut(s: Stream)
  {
    !s.arrives || (s.deltas == [] && !s.raises)
  }

  /** The stream is consumed to its end and asks for another round. */
  predicate Continues(s: Stream)
  {
    !TimesOut(s) && !s.raises && FinishReason(s.deltas) == "tool_calls" && CallsOf(s.deltas) != []
  }

  // ---------- what a turn amounts to ----------

  function Results(w: World, round: nat, calls: seq<ToolCall>): seq<Message>
  {
    seq(|calls|, j requires 0 <= j < |calls| => ResultMessage(w.tools(round, j).content, calls[j].id))
  }

  function RoundLog(w: World, round: nat): seq<Message>
  {
    var ds := w.provider(round).deltas;
    [CallMessage(Concat(TextsOf(ds)), CallsOf(ds))] + Results(w, round, CallsOf(ds))
  }

  /** Messages added by the first `k` rounds. */
  function Log(w: World, k: nat): seq<Message>
  {
    if k == 0 then [] else Log(w, k - 1) + RoundLog(w, k - 1)
  }

  /** Text pieces streamed by the first `k` provider calls. */
  function Texts(w: World, k: nat): seq<string>
  {
    if k == 0 then [] else Texts(w, k - 1) + TextsOf(w.provider(k - 1).deltas)
  }

  function TextEvents(texts: seq<string>): seq<OrchEvent>
  {
    seq(|texts|, i requires 0 <= i < |texts| => OrchText(texts[i]))
  }

  function StatusEvents(w: World, round: nat, calls: seq<ToolCall>): seq<OrchEvent>
  {
    if calls == [] then []
    else
      var j := |calls| - 1;
      StatusEvents(w, round, calls[..j]) +
      [OrchStatus(calls[j].name, Running),
       OrchStatus(calls[j].name, if w.tools(round, j).ok then Succeeded else Failed)]
  }

  /** Events of the first `k` rounds. */
  function Events(w: World, k: nat): seq<OrchEvent>
  {
    if k == 0 then []
    else
      var ds := w.provider(k - 1).deltas;
      Events(w, k - 1) + TextEvents(TextsOf(ds)) + StatusEvents(w, k - 1, CallsOf(ds))
  }

  /** The events of a turn and how it ended, for a given world. */
  ghost predicate IsTurn(w: World, phrases: Phrases, events: seq<OrchEvent>, end: TurnEnd)
  {
    var k := if end.LoopExceeded? then MAX_TOOL_ITERATIONS else end.rounds;
    && (forall i :: 0 <= i < k ==> Continues(w.provider(i)))
    && (end.LoopExceeded? || k < MAX_TOOL_ITERATIONS)
    && match end
       case Final(_) =>
         var s := w.provider(k);
         var text := Concat(Texts(w, k + 1));
         && !TimesOut(s) && !s.raises && !Continues(s)
         && events == Events(w, k) + TextEvents(TextsOf(s.deltas)) +
                      [OrchDone(text, FinishReason(s.deltas), Log(w, k) + [Reply(text)])]
       case TimedOut(_) =>
         && TimesOut(w.provider(k))
         && events == Events(w, k) + [OrchDone(phrases.timeout, "timeout", [])]
       case LoopExceeded =>
         events == Events(w, k) +
                   [OrchDone(phrases.exceeded, "tool_loop_exceeded", Log(w, k) + [Reply(phrases.exceeded)])]
       case ProviderFailed(_) =>
         var s := w.provider(k);
         && !TimesOut(s) && s.raises
         && events == Events(w, k) + TextEvents(TextsOf(s.deltas))
  }

  // ---------- the source's loops ----------

  method Consume(ds: seq<ChatDelta>)
    returns (events: seq<OrchEvent>, texts: seq<string>, acc: map<int, Partial>, finishReason: string)
    ensures texts == TextsOf(ds) && events == TextEvents(texts)
    ensures acc.Keys == Indices(ds) && forall i :: i in acc ==> acc[i] == Assembled(Fragments(ds, i))
    ensures finishReason == FinishReason(ds)
  {
    hide Assembled, Fragments, Indices, TextsOf, TextEvents, FinishReason;
    NothingConsumed();
    events, texts, acc, finishReason := [], [], map[], "stop";
    for n := 0 to |ds|
      invariant texts == TextsOf(ds[..n]) && events == TextEvents(texts)
      invariant acc.Keys == Indices(ds[..n])
      invariant forall i :: i in acc ==> acc[i] == Assembled(Fragments(ds[..n], i))
      invariant finishReason == FinishReason(ds[..n])
    {
      assert ds[..n + 1][..n] == ds[..n];
      IndicesSnoc(ds, n);
      FragmentsSnoc(ds, n);
      TextsSnoc(ds, n);
      assert texts + [] == texts;
      NoFragments(ds[..n]);
      AssembledNone();
      match ds[n]
      case TextDelta(text) =>
        TextEventsSnoc(texts, text);
        texts := texts + [text];
        events := events + [OrchText(text)];
      case ReasoningDelta(_) =>
      case ToolCallDelta(index, id, name, arguments) =>
        var partial := if index in acc then acc[index] else Partial("", "", "");
        if id.Some? && id.value != "" {
          partial := partial.(id := id.value);
        }
        if name.Some? && name.value != "" {
          partial := partial.(name := name.value);
        }
        partial := partial.(arguments := partial.arguments + arguments);
        AssembledSnoc(Fragments(ds[..n], index), Fragment(id, name, arguments));
        acc := acc[index := partial];
      case Done(reason) =>
        finishReason := reason;
    }
    assert ds[..|ds|] == ds;
  }

  method RunTools(w: World, round: nat, calls: seq<ToolCall>)
    returns (events: seq<OrchEvent>, results: seq<Message>, executed: seq<ToolCall>)
    ensures events == StatusEvents(w, round, calls)
    ensures results == Results(w, round, calls)
    ensures executed == calls
    ensures Reports(w, round, calls, results)
    ensures Announces(w, round, calls, events)
  {
    events, results, executed := [], [], [];
    for j := 0 to |calls|
      invariant events == StatusEvents(w, round, calls[..j])
      invariant results == Results(w, round, calls[..j])
      invariant executed == calls[..j]
    {
      assert calls[..j + 1][..j] == calls[..j];
      var call := calls[j];
      events := events + [OrchStatus(call.name, Running)];
      var result := w.tools(round, j);
      executed := executed + [call];
      events := events + [OrchStatus(call.name, if result.ok then Succeeded else Failed)];
      results := results + [ResultMessage(result.content, call.id)];
    }
    assert calls[..|calls|] == calls;
    StatusesAnnounce(w, round, calls);
  }

  /** `sorted(acc.items())` turned into calls. */
  method FinishCalls(acc: map<int, Partial>) returns (calls: seq<ToolCall>)
    ensures var order := Sorted(acc.Keys);
      && |calls| == |order|
      && forall k :: 0 <= k < |calls| ==> calls[k] == Finished(acc[order[k]], order[k])
  {
    var order := Sorted(acc.Keys);
    calls := [];
    for k := 0 to |order|
      invariant |calls| == k
      invariant forall i :: 0 <= i < k ==> calls[i] == Finished(acc[order[i]], order[i])
    {
      calls := calls + [Finished(acc[order[k]], order[k])];
    }
  }

  /** Also returns the message list each provider call received and the tool calls executed, in order. */
  method RunTurn(system: string, history: seq<Message>, w: World, phrases: Phrases)
    returns (events: seq<OrchEvent>, end: TurnEnd, requests: seq<seq<Message>>, executed: seq<ToolCall>)
    ensures IsTurn(w, phrases, events, end)
    ensures |requests| == if end.LoopExceeded? then MAX_TOOL_ITERATIONS else end.rounds + 1
    ensures forall i :: 0 <= i < |requests| ==> requests[i] == [SystemMessage(system)] + history + Log(w, i)
    ensures executed == Executed(w, if end.LoopExceeded? then MAX_TOOL_ITERATIONS else end.rounds)
  {
    hide CallsOf, Sorted, TextsOf, FinishReason, Log, Texts, Events, Executed, Results, TextEvents, StatusEvents,
      Assembled, Fragments, Indices, Finished, Concat, Reports, Announces, CallMessage, SystemMessage, Reply,
      TimesOut, IsTurn;
    NoRounds(w);
    var messages := [SystemMessage(system)] + history;
    ghost var opening := messages;
    var newMessages: seq<Message> := [];
    var fullText: seq<string> := [];
    events, requests, executed := [], [], [];
    for iteration := 0 to MAX_TOOL_ITERATIONS
      invariant newMessages == Log(w, iteration) && messages == opening + newMessages
      invariant fullText == Texts(w, iteration) && events == Events(w, iteration)
      invariant executed == Executed(w, iteration)
      invariant |requests| == iteration
      invariant forall i :: 0 <= i < iteration ==> requests[i] == [SystemMessage(system)] + history + Log(w, i)
      invariant RoundsRan(w, iteration)
    {
      requests := requests + [messages];
      var stream := w.provider(iteration);
      if TimesOut(stream) {
        TurnTimesOut(w, phrases, iteration);
        events := events + [OrchDone(phrases.timeout, "timeout", [])];
        return events, TimedOut(iteration), requests, executed;
      }
      var streamed, turnText, acc, finishReason := Consume(stream.deltas);
      events := events + streamed;
      if stream.raises {
        TurnFails(w, phrases, iteration);
        return events, ProviderFailed(iteration), requests, executed;
      }
      fullText := fullText + turnText;
      CallsFromAcc(stream.deltas, acc);
      if finishReason != "tool_calls" || acc == map[] {
        TextsStep(w, iteration);
        var reply := Reply(Concat(fullText));
        TurnIsOver(w, phrases, iteration);
        newMessages := newMessages + [reply];
        events := events + [OrchDone(Concat(fullText), finishReason, newMessages)];
        return events, Final(iteration), requests, executed;
      }
      RoundStep(w, iteration);
      var calls := FinishCalls(acc);
      CallsAreFinished(stream.deltas, acc, calls);
      var assistant := CallMessage(Concat(turnText), calls);
      Associative(opening, newMessages, [assistant]);
      messages := messages + [assistant];
      newMessages := newMessages + [assistant];
      var statuses, results, ran := RunTools(w, iteration, calls);
      Associative(opening, newMessages, results);
      events := events + statuses;
      executed := executed + ran;
      messages := messages + results;
      newMessages := newMessages + results;
    }
    TurnIsTooLong(w, phrases);
    newMessages := newMessages + [Reply(phrases.exceeded)];
    events := events + [OrchDone(phrases.exceeded, "tool_loop_exceeded", newMessages)];
    return events, LoopExceeded, requests, executed;
  }

  /** Tool calls of the first `k` rounds, in order. */
  function Executed(w: World, k: nat): seq<ToolCall>
  {
    if k == 0 then [] else Executed(w, k - 1) + CallsOf(w.provider(k - 1).deltas)
  }

  // ---------- lemmas behind the loops ----------

  lemma NothingConsumed()
    ensures TextsOf([]) == [] && TextEvents([]) == [] && Indices([]) == {} && FinishReason([]) == "stop"
  {
  }

  lemma TextsSnoc(ds: seq<ChatDelta>, n: nat)
    requires n < |ds|
    ensures TextsOf(ds[..n + 1]) == TextsOf(ds[..n]) + if ds[n].TextDelta? then [ds[n].text] else []
    ensures FinishReason(ds[..n + 1]) == if ds[n].Done? then ds[n].finishReason else FinishReason(ds[..n])
  {
    assert ds[..n + 1][..n] == ds[..n];
  }

  lemma TextEventsSnoc(texts: seq<string>, text: string)
    ensures TextEvents(texts + [text]) == TextEvents(texts) + [OrchText(text)]
  {
  }

  lemma IndicesSnoc(ds: seq<ChatDelta>, n: nat)
    requires n < |ds|
    ensures Indices(ds[..n + 1]) ==
      if ds[n].ToolCallDelta? then Indices(ds[..n]) + {ds[n].index} else Indices(ds[..n])
  {
    assert ds[..n + 1] == ds[..n] + [ds[n]];
    forall x | x in Indices(ds[..n]) ensures x in Indices(ds[..n + 1]) {
      var d :| d in ds[..n] && d.ToolCallDelta? && d.index == x;
      assert d in ds[..n + 1];
    }
    if ds[n].ToolCallDelta? {
      assert ds[n] in ds[..n + 1];
    }
  }

  /** An index has fragments exactly when it occurs. */
  lemma {:induction false} NoFragments(ds: seq<ChatDelta>)
    ensures forall i :: i in Indices(ds) <==> Fragments(ds, i) != []
  {
    if ds != [] {
      var n := |ds| - 1;
      NoFragments(ds[..n]);
      IndicesSnoc(ds, n);
      assert ds[..n + 1] == ds;
    }
  }

  lemma FragmentsSnoc(ds: seq<ChatDelta>, n: nat)
    requires n < |ds|
    ensures forall i :: Fragments(ds[..n + 1], i) == Extended(Fragments(ds[..n], i), ds[n], i)
  {
    assert ds[..n + 1][..n] == ds[..n];
  }

  lemma AssembledNone()
    ensures Assembled([]) == Partial("", "", "")
  {
  }

  lemma AssembledSnoc(fs: seq<Fragment>, f: Fragment)
    ensures var p, q := Assembled(fs), Assembled(fs + [f]);
      && q.id == (if f.id.Some? && f.id.value != "" then f.id.value else p.id)
      && q.name == (if f.name.Some? && f.name.value != "" then f.name.value else p.name)
      && q.arguments == p.arguments + f.arguments
  {
    assert Ids(fs + [f]) == Ids(fs) + [f.id];
    assert Names(fs + [f]) == Names(fs) + [f.name];
    assert Pieces(fs + [f]) == Pieces(fs) + [f.arguments];
    LastNonEmptySnoc(Ids(fs), f.id);
    LastNonEmptySnoc(Names(fs), f.name);
    ConcatSnoc(Pieces(fs), f.arguments);
  }

  lemma {:induction false} LastNonEmptySnoc(values: seq<Option<string>>, v: Option<string>)
    ensures LastNonEmpty(values + [v]) == if v.Some? && v.value != "" then v.value else LastNonEmpty(values)
  {
    if values != [] {
      assert (values + [v])[1..] == values[1..] + [v];
      LastNonEmptySnoc(values[1..], v);
    }
  }

  lemma CallsFromAcc(ds: seq<ChatDelta>, acc: map<int, Partial>)
    requires acc.Keys == Indices(ds)
    ensures acc == map[] <==> CallsOf(ds) == []
  {
    assert acc == map[] <==> acc.Keys == {};
  }

  lemma CallsAreFinished(ds: seq<ChatDelta>, acc: map<int, Partial>, calls: seq<ToolCall>)
    requires acc.Keys == Indices(ds) && forall i :: i in acc ==> acc[i] == Assembled(Fragments(ds, i))
    requires var order := Sorted(acc.Keys);
      |calls| == |order| && forall k :: 0 <= k < |calls| ==> calls[k] == Finished(acc[order[k]], order[k])
    ensures calls == CallsOf(ds)
  {
  }

  predicate RoundsRan(w: World, n: nat)
  {
    forall i :: 0 <= i < n ==> Continues(w.provider(i))
  }

  lemma TurnTimesOut(w: World, phrases: Phrases, k: nat)
    requires k < MAX_TOOL_ITERATIONS && RoundsRan(w, k) && TimesOut(w.provider(k))
    ensures IsTurn(w, phrases, Events(w, k) + [OrchDone(phrases.timeout, "timeout", [])], TimedOut(k))
  {
  }

  lemma TurnFails(w: World, phrases: Phrases, k: nat)
    requires k < MAX_TOOL_ITERATIONS && RoundsRan(w, k) && !TimesOut(w.provider(k)) && w.provider(k).raises
    ensures IsTurn(w, phrases, Events(w, k) + TextEvents(TextsOf(w.provider(k).deltas)), ProviderFailed(k))
  {
  }

  lemma TurnIsOver(w: World, phrases: Phrases, k: nat)
    requires k < MAX_TOOL_ITERATIONS && RoundsRan(w, k) && !TimesOut(w.provider(k)) && !w.provider(k).raises
    requires FinishReason(w.provider(k).deltas) != "tool_calls" || CallsOf(w.provider(k).deltas) == []
    ensures var ds, text := w.provider(k).deltas, Concat(Texts(w, k + 1));
      IsTurn(w, phrases,
             Events(w, k) + TextEvents(TextsOf(ds)) + [OrchDone(text, FinishReason(ds), Log(w, k) + [Reply(text)])],
             Final(k))
  {
  }

  lemma TurnIsTooLong(w: World, phrases: Phrases)
    requires RoundsRan(w, MAX_TOOL_ITERATIONS)
    ensures IsTurn(w, phrases,
                   Events(w, MAX_TOOL_ITERATIONS) +
                     [OrchDone(phrases.exceeded, "tool_loop_exceeded",
                               Log(w, MAX_TOOL_ITERATIONS) + [Reply(phrases.exceeded)])],
                   LoopExceeded)
  {
  }

  lemma NoRounds(w: World)
    ensures Log(w, 0) == [] && Texts(w, 0) == [] && Events(w, 0) == [] && Executed(w, 0) == []
  {
  }

  lemma TextsStep(w: World, k: nat)
    ensures Texts(w, k + 1) == Texts(w, k) + TextsOf(w.provider(k).deltas)
  {
  }

  lemma RoundStep(w: World, k: nat)
    ensures var ds := w.provider(k).deltas;
      && Log(w, k + 1) == Log(w, k) + [CallMessage(Concat(TextsOf(ds)), CallsOf(ds))] + Results(w, k, CallsOf(ds))
      && Texts(w, k + 1) == Texts(w, k) + TextsOf(ds)
      && Events(w, k + 1) == Events(w, k) + TextEvents(TextsOf(ds)) + StatusEvents(w, k, CallsOf(ds))
      && Executed(w, k + 1) == Executed(w, k) + CallsOf(ds)
  {
    var ds := w.provider(k).deltas;
    Associative(Log(w, k), [CallMessage(Concat(TextsOf(ds)), CallsOf(ds))], Results(w, k, CallsOf(ds)));
  }

  // ---------- what a turn guarantees ----------

  /**
   * `ms` is exactly `k` rounds, each one assistant message with calls followed by its results with the
   * same ids in the same order.
   */
  predicate IsRounds(ms: seq<Message>, k: nat)
    decreases k
  {
    if k == 0 then ms == []
    else
      && ms != [] && AsksForTools(ms[0])
      && var n := |ms[0].toolCalls.value|;
         && |ms| > n
         && Answers(ms[0].toolCalls.value, ms[1..n + 1])
         && IsRounds(ms[n + 1..], k - 1)
  }

  /** Two events per call: that it runs, and whether its tool succeeded. */
  predicate Announces(w: World, round: nat, calls: seq<ToolCall>, events: seq<OrchEvent>)
  {
    && |events| == 2 * |calls|
    && forall j :: 0 <= j < |calls| ==>
      && events[2 * j] == OrchStatus(calls[j].name, Running)
      && events[2 * j + 1] == OrchStatus(calls[j].name, if w.tools(round, j).ok then Succeeded else Failed)
  }

  lemma {:induction false} StatusesAnnounce(w: World, round: nat, calls: seq<ToolCall>)
    ensures Announces(w, round, calls, StatusEvents(w, round, calls))
  {
    if calls != [] {
      StatusesAnnounce(w, round, calls[..|calls| - 1]);
    }
  }

  /** One message per call, with what its tool answered and the id of the call. */
  predicate Reports(w: World, round: nat, calls: seq<ToolCall>, results: seq<Message>)
  {
    && |results| == |calls|
    && forall j :: 0 <= j < |calls| ==>
      results[j] == Message(Tool, w.tools(round, j).content, None, Some(calls[j].id))
  }

  /**
   * `ms` is what rounds `first` to `first + k - 1` say and hear: the text streamed and the calls asked for, then what
   * each tool answered.
   */
  ghost predicate IsRoundsOf(ms: seq<Message>, w: World, first: nat, k: nat)
    decreases k
  {
    if k == 0 then ms == []
    else
      var ds := w.provider(first).deltas;
      var n := |CallsOf(ds)|;
      && |ms| > n
      && ms[0] == Message(Assistant, Concat(TextsOf(ds)), Some(CallsOf(ds)), None)
      && Reports(w, first, CallsOf(ds), ms[1..n + 1])
      && IsRoundsOf(ms[n + 1..], w, first + 1, k - 1)
  }

  lemma {:induction false} IsRoundsOfSnoc(a: seq<Message>, b: seq<Message>, w: World, first: nat, k: nat)
    requires IsRoundsOf(a, w, first, k) && IsRoundsOf(b, w, first + k, 1)
    ensures IsRoundsOf(a + b, w, first, k + 1)
    decreases k
  {
    hide Reports, CallsOf, TextsOf, Concat;
    if k == 0 {
      assert a + b == b;
    } else {
      var n := |CallsOf(w.provider(first).deltas)|;
      assert (a + b)[1..n + 1] == a[1..n + 1] && (a + b)[n + 1..] == a[n + 1..] + b;
      IsRoundsOfSnoc(a[n + 1..], b, w, first + 1, k - 1);
    }
  }

  lemma {:induction false} IsRoundsSnoc(a: seq<Message>, b: seq<Message>, k: nat)
    requires IsRounds(a, k) && IsRounds(b, 1)
    ensures IsRounds(a + b, k + 1)
    decreases k
  {
    hide Answers;
    if k == 0 {
      assert a + b == b;
    } else {
      var n := |a[0].toolCalls.value|;
      assert (a + b)[1..n + 1] == a[1..n + 1] && (a + b)[n + 1..] == a[n + 1..] + b;
      IsRoundsSnoc(a[n + 1..], b, k - 1);
    }
  }

  lemma {:induction false} LogIsRounds(w: World, k: nat)
    requires forall i :: 0 <= i < k ==> Continues(w.provider(i))
    ensures IsRounds(Log(w, k), k) && IsRoundsOf(Log(w, k), w, 0, k)
  {
    hide Continues, RoundLog, IsRounds, IsRoundsOf, Log;
    if k == 0 {
      NoRoundsIsRounds(w);
    } else {
      LogIsRounds(w, k - 1);
      OneRound(w, k - 1);
      LogStep(w, k - 1);
      IsRoundsOfSnoc(Log(w, k - 1), RoundLog(w, k - 1), w, 0, k - 1);
      IsRoundsSnoc(Log(w, k - 1), RoundLog(w, k - 1), k - 1);
    }
  }

  lemma NoRoundsIsRounds(w: World)
    ensures IsRounds(Log(w, 0), 0) && IsRoundsOf(Log(w, 0), w, 0, 0)
  {
  }

  lemma LogStep(w: World, k: nat)
    ensures Log(w, k + 1) == Log(w, k) + RoundLog(w, k)
  {
  }

  lemma ContinuesAsks(s: Stream)
    requires Continues(s)
    ensures CallsOf(s.deltas) != []
  {
  }

  lemma OneRound(w: World, round: nat)
    requires Continues(w.provider(round))
    ensures IsRounds(RoundLog(w, round), 1) && IsRoundsOf(RoundLog(w, round), w, round, 1)
  {
    hide CallsOf, TextsOf, Continues, Concat;
    ContinuesAsks(w.provider(round));
    var ms := RoundLog(w, round);
    var calls := CallsOf(w.provider(round).deltas);
    var results := Results(w, round, calls);
    assert ms == [CallMessage(Concat(TextsOf(w.provider(round).deltas)), calls)] + results;
    assert ms[0].toolCalls == Some(calls);
    assert Reports(w, round, calls, results);
    assert ms[1..|calls| + 1] == results && ms[|calls| + 1..] == [];
  }

  lemma {:induction false} RoundsArePaired(ms: seq<Message>, k: nat)
    requires IsRounds(ms, k)
    ensures Paired(ms)
    decreases k
  {
    if k > 0 {
      RoundsArePaired(ms[|ms[0].toolCalls.value| + 1..], k - 1);
    }
  }

  /**
   * Every turn that is not cut short ends with exactly one `OrchDone`. Its messages are `k` rounds and one
   * reply, `k` at most 4, and 5 exactly when the loop bound is hit; a timed-out turn carries none.
   */
  lemma DoneIsWellFormed(w: World, phrases: Phrases, events: seq<OrchEvent>, end: TurnEnd)
    requires IsTurn(w, phrases, events, end) && !end.ProviderFailed?
    ensures events != [] && events[|events| - 1].OrchDone?
    ensures forall i :: 0 <= i < |events| - 1 ==> !events[i].OrchDone?
    ensures
      var ms := events[|events| - 1].newMessages;
      && Paired(ms)
      && if end.TimedOut? then ms == []
         else
           && ms != []
           && ms[|ms| - 1] == Message(Assistant, events[|events| - 1].text, None, None)
           && IsRounds(ms[..|ms| - 1], if end.LoopExceeded? then 5 else end.rounds)
           && IsRoundsOf(ms[..|ms| - 1], w, 0, if end.LoopExceeded? then 5 else end.rounds)
           && (end.Final? ==> end.rounds <= 4)
    ensures end.TimedOut? ==> events[|events| - 1].text == phrases.timeout
    ensures end.LoopExceeded? ==> events[|events| - 1].text == phrases.exceeded
  {
    hide Log, Events, TextsOf, Texts, Continues, TimesOut, IsRounds, IsRoundsOf, Paired, FinishReason;
    var k := if end.LoopExceeded? then MAX_TOOL_ITERATIONS else end.rounds;
    var done := events[|events| - 1];
    EventsNotDone(w, k);
    if !end.TimedOut? {
      LogIsRounds(w, k);
      RoundsArePaired(Log(w, k), k);
      RepliedIsPaired(Log(w, k), done.text);
    } else {
      NothingIsPaired();
    }
  }

  lemma NothingIsPaired()
    ensures Paired([])
  {
  }

  lemma RepliedIsPaired(ms: seq<Message>, text: string)
    requires Paired(ms)
    ensures Paired(ms + [Reply(text)]) && (ms + [Reply(text)])[..|ms + [Reply(text)]| - 1] == ms
  {
    var reply := [Reply(text)];
    assert Paired(reply[1..]);
    PairedAppend(ms, reply);
  }

  /** A turn whose provider raises emits no `OrchDone`. */
  lemma FailedTurnHasNoDone(w: World, phrases: Phrases, events: seq<OrchEvent>, end: TurnEnd)
    requires IsTurn(w, phrases, events, end) && end.ProviderFailed?
    ensures forall i :: 0 <= i < |events| ==> !events[i].OrchDone?
  {
    EventsNotDone(w, end.rounds);
  }

  lemma {:induction false} EventsNotDone(w: World, k: nat)
    ensures forall i :: 0 <= i < |Events(w, k)| ==> !Events(w, k)[i].OrchDone?
  {
    hide CallsOf, TextsOf, StatusEvents, TextEvents;
    if k > 0 {
      var ds := w.provider(k - 1).deltas;
      EventsNotDone(w, k - 1);
      StatusNotDone(w, k - 1, CallsOf(ds));
      TextsNotDone(TextsOf(ds));
    }
  }

  lemma TextsNotDone(texts: seq<string>)
    ensures forall i :: 0 <= i < |TextEvents(texts)| ==> TextEvents(texts)[i].OrchText?
  {
  }

  lemma {:induction false} StatusNotDone(w: World, round: nat, calls: seq<ToolCall>)
    ensures forall i :: 0 <= i < |StatusEvents(w, round, calls)| ==> StatusEvents(w, round, calls)[i].OrchStatus?
  {
    if calls != [] {
      StatusNotDone(w, round, calls[..|calls| - 1]);
    }
  }

  /** The text pieces among the events, in order. */
  function Streamed(events: seq<OrchEvent>): seq<string>
  {
    if events == [] then []
    else
      var last := events[|events| - 1];
      Streamed(events[..|events| - 1]) + if last.OrchText? then [last.text] else []
  }

  lemma {:induction false} StreamedAppend(a: seq<OrchEvent>, b: seq<OrchEvent>)
    ensures Streamed(a + b) == Streamed(a) + Streamed(b)
  {
    if b == [] {
      assert a + b == a;
    } else {
      var n := |b| - 1;
      StreamedAppend(a, b[..n]);
      assert (a + b)[..|a + b| - 1] == a + b[..n];
    }
  }

  lemma {:induction false} StreamedTexts(texts: seq<string>)
    ensures Streamed(TextEvents(texts)) == texts
  {
    if texts != [] {
      var n := |texts| - 1;
      StreamedTexts(texts[..n]);
      assert TextEvents(texts)[..n] == TextEvents(texts[..n]);
    }
  }

  lemma {:induction false} StreamedStatuses(w: World, round: nat, calls: seq<ToolCall>)
    ensures Streamed(StatusEvents(w, round, calls)) == []
  {
    if calls != [] {
      var n := |calls| - 1;
      StreamedStatuses(w, round, calls[..n]);
      var e := StatusEvents(w, round, calls);
      assert e[..|e| - 1][..|e| - 2] == StatusEvents(w, round, calls[..n]);
    }
  }

  lemma {:induction false} StreamedRounds(w: World, k: nat)
    ensures Streamed(Events(w, k)) == Texts(w, k)
  {
    hide TextsOf, CallsOf, StatusEvents, TextEvents, Streamed, Events, Texts, Log, Executed;
    NoRounds(w);
    if k == 0 {
      StreamedNone();
    } else {
      var ds := w.provider(k - 1).deltas;
      StreamedRounds(w, k - 1);
      RoundStep(w, k - 1);
      StreamedTexts(TextsOf(ds));
      StreamedStatuses(w, k - 1, CallsOf(ds));
      StreamedAppend(Events(w, k - 1), TextEvents(TextsOf(ds)));
      StreamedAppend(Events(w, k - 1) + TextEvents(TextsOf(ds)), StatusEvents(w, k - 1, CallsOf(ds)));
      assert Texts(w, k) + [] == Texts(w, k);
    }
  }

  lemma StreamedNone()
    ensures Streamed([]) == []
  {
  }

  /** The reply of a turn that ends normally is everything that was streamed, over all its rounds. */
  lemma ReplyIsWhatWasStreamed(w: World, phrases: Phrases, events: seq<OrchEvent>, end: TurnEnd)
    requires IsTurn(w, phrases, events, end) && end.Final?
    ensures events != [] && events[|events| - 1].OrchDone?
    ensures events[|events| - 1].text == Concat(Streamed(events))
  {
    hide TextsOf, Continues, TimesOut, Log, Events, Streamed, TextEvents;
    var k := end.rounds;
    var ds := w.provider(k).deltas;
    StreamedRounds(w, k);
    StreamedTexts(TextsOf(ds));
    StreamedAppend(Events(w, k), TextEvents(TextsOf(ds)));
    var done := events[|events| - 1];
    StreamedAppend(Events(w, k) + TextEvents(TextsOf(ds)), [done]);
    StreamedOne(done);
    TextsStep(w, k);
    assert Texts(w, k + 1) + [] == Texts(w, k + 1);
  }

  lemma StreamedOne(e: OrchEvent)
    ensures Streamed([e]) == if e.OrchText? then [e.text] else []
  {
    assert [e][..0] == [];
  }

  /**
   * How fragments of different calls, text and reasoning are interleaved does not matter: two streams with
   * the same fragments for every index ask for the same calls.
   */
  lemma InterleavingIsIrrelevant(a: seq<ChatDelta>, b: seq<ChatDelta>)
    requires forall i :: Fragments(a, i) == Fragments(b, i)
    ensures CallsOf(a) == CallsOf(b)
  {
    hide Fragments, Assembled, Finished;
    NoFragments(a);
    NoFragments(b);
    assert Indices(a) == Indices(b);
  }

  lemma {:induction false} DecimalDigits(n: int)
    requires n >= 0
    ensures Decimal(n) != "" && forall i :: 0 <= i < |Decimal(n)| ==> Decimal(n)[i] in "0123456789"
  {
    if n >= 10 {
      DecimalDigits(n / 10);
    }
  }

  lemma DigitsDiffer(a: int, b: int)
    requires 0 <= a < 10 && 0 <= b < 10 && "0123456789"[a] == "0123456789"[b]
    ensures a == b
  {
  }

  lemma {:induction false} DecimalTellsApart(a: int, b: int)
    requires 0 <= a && 0 <= b && Decimal(a) == Decimal(b)
    ensures a == b
    decreases a
  {
    DecimalDigits(a / 10);
    DecimalDigits(b / 10);
    if a >= 10 && b >= 10 {
      var d, e := Decimal(a), Decimal(b);
      assert d[..|d| - 1] == Decimal(a / 10) && e[..|e| - 1] == Decimal(b / 10);
      assert d[|d| - 1] == "0123456789"[a % 10] && e[|e| - 1] == "0123456789"[b % 10];
      DecimalTellsApart(a / 10, b / 10);
      DigitsDiffer(a % 10, b % 10);
    } else if a < 10 && b < 10 {
      assert Decimal(a)[0] == Decimal(b)[0];
      DigitsDiffer(a, b);
    }
  }

  /** Calls without an id of their own get different ones, provided the indexes are not negative. */
  lemma GeneratedIdsDiffer(ds: seq<ChatDelta>, i: int, j: int)
    requires 0 <= i && 0 <= j && i != j && i in Indices(ds) && j in Indices(ds)
    requires Assembled(Fragments(ds, i)).id == "" && Assembled(Fragments(ds, j)).id == ""
    ensures Finished(Assembled(Fragments(ds, i)), i).id != Finished(Assembled(Fragments(ds, j)), j).id
  {
    hide Assembled, Fragments;
    var a, b := "call_" + Decimal(i), "call_" + Decimal(j);
    if a == b {
      assert a[5..] == Decimal(i) && b[5..] == Decimal(j);
      DecimalTellsApart(i, j);
    }
  }

  // ---------- how far a turn gets ----------

  /** The provider answers in time, and with something. */
  predicate Responds(s: Stream)
  {
    s.arrives && (s.deltas != [] || s.raises)
  }

  /** The k-th call is answered to its end, which is `tool_calls`, and at least one call was named. */
  predicate AsksAgain(w: World, k: nat)
  {
    var s := w.provider(k);
    && Responds(s) && !s.raises && FinishReason(s.deltas) == "tool_calls"
    && exists d :: d in s.deltas && d.ToolCallDelta?
  }

  /** Calls `0` to `k - 1` all ask for another round. */
  predicate Reached(w: World, k: nat)
  {
    forall i :: 0 <= i < k ==> AsksAgain(w, i)
  }

  /** The world decides how a turn ends: in the first call that does not ask for another round, or at the bound. */
  lemma HowATurnEnds(w: World, phrases: Phrases, events: seq<OrchEvent>, end: TurnEnd)
    requires IsTurn(w, phrases, events, end)
    ensures end.LoopExceeded? <==> Reached(w, 5)
    ensures !end.LoopExceeded? ==> end.rounds < 5 && Reached(w, end.rounds) && !AsksAgain(w, end.rounds)
    ensures !end.LoopExceeded? ==>
      var s := w.provider(end.rounds);
      && (end.TimedOut? <==> !Responds(s))
      && (end.ProviderFailed? <==> Responds(s) && s.raises)
      && (end.Final? <==> Responds(s) && !s.raises)
  {
    hide FinishReason, CallsOf, Events, TextEvents, TextsOf, Log, Texts, Concat;
    forall k: nat ensures AsksAgain(w, k) <==> Continues(w.provider(k)) {
      AsksIffContinues(w, k);
    }
  }

  lemma AsksIffContinues(w: World, k: nat)
    ensures AsksAgain(w, k) <==> Continues(w.provider(k))
  {
    hide FinishReason;
    var ds := w.provider(k).deltas;
    if d :| d in ds && d.ToolCallDelta? {
      assert d.index in Indices(ds);
    }
  }

  predicate IsLastDone(ds: seq<ChatDelta>, i: nat)
  {
    i < |ds| && ds[i].Done? && forall j :: i < j < |ds| ==> !ds[j].Done?
  }

  /** The reason of a stream is that of its last `Done`, and `stop` without one. */
  lemma {:induction false} FinishReasonIs(ds: seq<ChatDelta>)
    ensures (forall i :: 0 <= i < |ds| ==> !ds[i].Done?) ==> FinishReason(ds) == "stop"
    ensures forall i: nat :: IsLastDone(ds, i) ==> FinishReason(ds) == ds[i].finishReason
  {
    if ds != [] {
      var n := |ds| - 1;
      FinishReasonIs(ds[..n]);
      forall i: nat | IsLastDone(ds, i) ensures FinishReason(ds) == ds[i].finishReason {
        if i < n {
          assert IsLastDone(ds[..n], i);
        }
      }
    }
  }

  predicate IsLastGiven(values: seq<Option<string>>, i: nat)
  {
    && i < |values| && values[i] !in {None, Some("")}
    && forall j :: i < j < |values| ==> values[j] in {None, Some("")}
  }

  /** Of the values given for a call's id or name, the last that is not empty counts. */
  lemma {:induction false} LastNonEmptyIs(values: seq<Option<string>>)
    ensures (forall i :: 0 <= i < |values| ==> values[i] in {None, Some("")}) ==> LastNonEmpty(values) == ""
    ensures forall i: nat :: IsLastGiven(values, i) ==> Some(LastNonEmpty(values)) == values[i]
  {
    if values != [] {
      var n := |values| - 1;
      LastNonEmptyIs(values[..n]);
      LastNonEmptySnoc(values[..n], values[n]);
      assert values == values[..n] + [values[n]];
    }
  }
}
