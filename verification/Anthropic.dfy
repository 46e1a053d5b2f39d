/** The Anthropic adapter: block events become chat deltas, the conversation becomes API messages. */
module Anthropic {
  import opened Text
  import opened Llm
  import opened Orchestrator

  datatype Block = ToolUse(id: string, name: string) | OtherBlock

  datatype StreamEvent =
    | BlockStart(index: int, block: Block)
    | TextPart(index: int, text: string)
    | ThinkingPart(index: int, thought: string)
    | JsonPart(index: int, partial: string)
    | MessageDelta(stopReason: Option<string>)
    | OtherEvent

  function MappedReason(reason: string): string
  {
    if reason == "end_turn" then "stop"
    else if reason == "tool_use" then "tool_calls"
    else if reason == "max_tokens" then "length"
    else reason
  }

  // ---------- from block events to deltas ----------

  /** Indexes announced as tool blocks so far. */
  function ToolBlocks(events: seq<StreamEvent>): set<int>
  {
    set e | e in events && e.BlockStart? && e.block.ToolUse? :: e.index
  }

  /** What one event yields, given the tool blocks announced before it. */
  function Yielded(e: StreamEvent, open: set<int>): seq<ChatDelta>
  {
    match e
    case BlockStart(index, ToolUse(id, name)) => [ToolCallDelta(index, Some(id), Some(name), "")]
    case TextPart(_, text) => [TextDelta(text)]
    case ThinkingPart(_, thought) => [ReasoningDelta(thought)]
    case JsonPart(index, partial) => if index in open then [ToolCallDelta(index, None, None, partial)] else []
    case _ => []
  }

  function Translated(events: seq<StreamEvent>): seq<ChatDelta>
  {
    if events == [] then []
    else
      var n := |events| - 1;
      Translated(events[..n]) + Yielded(events[n], ToolBlocks(events[..n]))
  }

  /** The last non-empty stop reason, mapped; `stop` when there is none. */
  function StopReason(events: seq<StreamEvent>): string
  {
    if events == [] then "stop"
    else RevisedReason(StopReason(events[..|events| - 1]), events[|events| - 1])
  }

  function RevisedReason(reason: string, e: StreamEvent): string
  {
    if e.MessageDelta? && e.stopReason.Some? && e.stopReason.value != "" then MappedReason(e.stopReason.value)
    else reason
  }

  /**
   * `cancelled(k)` says whether the request's cancel event is set when event `k` is looked at; the
   * connection may raise after the last event. `seen` is how many events were handled.
   */
  method ChatStream(events: seq<StreamEvent>, cancelled: nat -> bool, raises: bool)
    returns (deltas: seq<ChatDelta>, failed: bool, seen: nat)
    ensures seen <= |events|
    ensures forall k :: 0 <= k < seen ==> !cancelled(k)
    ensures seen < |events| ==> cancelled(seen)
    ensures failed <==> seen == |events| && raises
    ensures deltas == Translated(events[..seen]) +
      if failed then []
      else [Done(if seen < |events| then "cancelled" else StopReason(events))]
  {
    hide Translated, ToolBlocks, StopReason, MappedReason;
    NothingTranslated();
    deltas, failed, seen := [], false, 0;
    var finishReason := "stop";
    var toolBlocks: set<int> := {};
    var stopped := false;
    var n := 0;
    while n < |events| && !stopped
      invariant n <= |events| && seen == n
      invariant deltas == Translated(events[..n])
      invariant toolBlocks == ToolBlocks(events[..n])
      invariant stopped ==> n < |events| && cancelled(n) && finishReason == "cancelled"
      invariant !stopped ==> finishReason == StopReason(events[..n])
      invariant forall k :: 0 <= k < n ==> !cancelled(k)
      decreases |events| - n, !stopped
    {
      if cancelled(n) {
        finishReason := "cancelled";
        stopped := true;
      } else {
        BlocksSnoc(events, n);
        match events[n] {
          case BlockStart(index, ToolUse(id, name)) =>
            toolBlocks := toolBlocks + {index};
            deltas := deltas + [ToolCallDelta(index, Some(id), Some(name), "")];
          case BlockStart(_, OtherBlock) =>
          case TextPart(_, text) =>
            deltas := deltas + [TextDelta(text)];
          case ThinkingPart(_, thought) =>
            deltas := deltas + [ReasoningDelta(thought)];
          case JsonPart(index, partial) =>
            if index in toolBlocks {
              deltas := deltas + [ToolCallDelta(index, None, None, partial)];
            }
          case MessageDelta(reason) =>
            if reason.Some? && reason.value != "" {
              finishReason := MappedReason(reason.value);
            }
          case OtherEvent =>
        }
        n := n + 1;
        seen := n;
      }
    }
    assert !stopped ==> events[..n] == events;
    if !stopped && raises {
      failed := true;
      assert deltas == deltas + [];
    } else {
      deltas := deltas + [Done(finishReason)];
    }
  }

  lemma NothingTranslated()
    ensures Translated([]) == [] && ToolBlocks([]) == {} && StopReason([]) == "stop"
  {
  }

  lemma BlocksSnoc(events: seq<StreamEvent>, n: nat)
    requires n < |events|
    ensures ToolBlocks(events[..n + 1]) ==
      if events[n].BlockStart? && events[n].block.ToolUse? then ToolBlocks(events[..n]) + {events[n].index}
      else ToolBlocks(events[..n])
    ensures Translated(events[..n + 1]) == Translated(events[..n]) + Yielded(events[n], ToolBlocks(events[..n]))
    ensures StopReason(events[..n + 1]) == RevisedReason(StopReason(events[..n]), events[n])
  {
    assert events[..n + 1] == events[..n] + [events[n]] && events[..n + 1][..n] == events[..n];
    forall x | x in ToolBlocks(events[..n]) ensures x in ToolBlocks(events[..n + 1]) {
      var e :| e in events[..n] && e.BlockStart? && e.block.ToolUse? && e.index == x;
      assert e in events[..n + 1];
    }
    if events[n].BlockStart? && events[n].block.ToolUse? {
      assert events[n] in events[..n + 1];
    }
  }

  // ---------- the round trip: blocks, events, deltas, calls ----------

  datatype ToolBlock = ToolBlock(id: string, name: string, parts: seq<string>)

  /** The events of the tool block with the given index, in order. */
  function Owned(events: seq<StreamEvent>, index: int): seq<StreamEvent>
  {
    if events == [] then []
    else
      var n := |events| - 1;
      var before := Owned(events[..n], index);
      if Owns(events[n], index) then before + [events[n]] else before
  }

  predicate Owns(e: StreamEvent, index: int)
  {
    (e.JsonPart? && e.index == index) || (e.BlockStart? && e.block.ToolUse? && e.index == index)
  }

  /** The events one block is sent as: its start, then the pieces of its input. */
  function BlockEvents(index: int, b: ToolBlock): seq<StreamEvent>
  {
    [BlockStart(index, ToolUse(b.id, b.name))] + PartEvents(index, b.parts)
  }

  function PartEvents(index: int, parts: seq<string>): seq<StreamEvent>
  {
    seq(|parts|, i requires 0 <= i < |parts| => JsonPart(index, parts[i]))
  }

  /**
   * `events` is some interleaving of the given tool blocks with anything else, input deltas of blocks that are not
   * tool blocks included.
   */
  ghost predicate Carries(events: seq<StreamEvent>, blocks: map<int, ToolBlock>)
  {
    forall i :: if i in blocks then Owned(events, i) == BlockEvents(i, blocks[i]) else !Opened(Owned(events, i))
  }

  /** One call per block, ascending by index. */
  function BlockCalls(blocks: map<int, ToolBlock>): seq<ToolCall>
  {
    var order := Sorted(blocks.Keys);
    seq(|order|, k requires 0 <= k < |order| =>
      var b := blocks[order[k]];
      ToolCall(if b.id != "" then b.id else "call_" + Decimal(order[k]), b.name, Concat(b.parts)))
  }

  /** What the orchestrator executes is what the model sent, block for block, however it was interleaved. */
  lemma BlocksSurvive(events: seq<StreamEvent>, blocks: map<int, ToolBlock>, reason: string)
    requires Carries(events, blocks)
    ensures CallsOf(Translated(events) + [Done(reason)]) == BlockCalls(blocks)
  {
    hide Fragments, Assembled, Translated, Carries, Indices, Concat, Decimal;
    var ds := Translated(events) + [Done(reason)];
    forall i ensures i in blocks <==> Fragments(ds, i) != []
      ensures i in blocks ==> Assembled(Fragments(ds, i)) == PartialOf(blocks[i])
    {
      BlockSurvives(events, blocks, reason, i);
    }
    NoFragments(ds);
    assert forall i :: i in Indices(ds) <==> i in blocks.Keys;
    assert Indices(ds) == blocks.Keys;
  }

  function PartialOf(b: ToolBlock): Partial { Partial(b.id, b.name, Concat(b.parts)) }

  lemma BlockSurvives(events: seq<StreamEvent>, blocks: map<int, ToolBlock>, reason: string, i: int)
    requires Carries(events, blocks)
    ensures var fs := Fragments(Translated(events) + [Done(reason)], i);
      && (i in blocks <==> fs != [])
      && (i in blocks ==> Assembled(fs) == PartialOf(blocks[i]))
  {
    hide Fragments, Assembled, Translated, BlockEvents;
    DoneAddsNoFragment(Translated(events), reason, i);
    FragmentsOfOwned(events, i);
    if i in blocks {
      PartsAssemble(i, blocks[i]);
    } else {
      UnopenedYieldsNothing(Owned(events, i));
    }
  }

  /** Input deltas of a block that was never announced as a tool block yield nothing. */
  lemma {:induction false} UnopenedYieldsNothing(owned: seq<StreamEvent>)
    requires !Opened(owned)
    ensures OwnedFragments(owned) == []
  {
    if owned != [] {
      UnopenedYieldsNothing(owned[..|owned| - 1]);
    }
  }

  lemma DoneAddsNoFragment(ds: seq<ChatDelta>, reason: string, index: int)
    ensures Fragments(ds + [Done(reason)], index) == Fragments(ds, index)
  {
    assert (ds + [Done(reason)])[..|ds|] == ds;
  }

  /** Fragments yielded by the events of one block alone. */
  function OwnedFragments(owned: seq<StreamEvent>): seq<Fragment>
  {
    if owned == [] then []
    else
      var n := |owned| - 1;
      OwnedFragments(owned[..n]) + OwnFragment(owned[..n], owned[n])
  }

  function OwnFragment(before: seq<StreamEvent>, e: StreamEvent): seq<Fragment>
  {
    match e
    case BlockStart(_, ToolUse(id, name)) => [Fragment(Some(id), Some(name), "")]
    case JsonPart(_, partial) => if Opened(before) then [Fragment(None, None, partial)] else []
    case _ => []
  }

  predicate Opened(owned: seq<StreamEvent>)
  {
    owned != [] && (owned[|owned| - 1].BlockStart? || Opened(owned[..|owned| - 1]))
  }

  lemma {:induction false} OpenedWhenAnnounced(events: seq<StreamEvent>, index: int)
    ensures index in ToolBlocks(events) <==> Opened(Owned(events, index))
  {
    hide ToolBlocks, Translated, StopReason;
    NothingTranslated();
    if events != [] {
      var n := |events| - 1;
      OpenedWhenAnnounced(events[..n], index);
      BlocksSnoc(events, n);
      assert events[..n + 1] == events;
      OpenedSnoc(Owned(events[..n], index), events[n]);
    }
  }

  lemma OpenedSnoc(owned: seq<StreamEvent>, e: StreamEvent)
    ensures Opened(owned + [e]) <==> e.BlockStart? || Opened(owned)
    ensures OwnedFragments(owned + [e]) == OwnedFragments(owned) + OwnFragment(owned, e)
  {
    assert (owned + [e])[..|owned|] == owned;
  }

  lemma {:induction false} FragmentsOfOwned(events: seq<StreamEvent>, index: int)
    ensures Fragments(Translated(events), index) == OwnedFragments(Owned(events, index))
  {
    hide ToolBlocks, Translated, StopReason, Fragments, OwnedFragments, Opened;
    NothingTranslated();
    if events == [] {
      NoOwnedFragments(index);
    } else {
      var n := |events| - 1;
      FragmentsOfOwned(events[..n], index);
      OpenedWhenAnnounced(events[..n], index);
      BlocksSnoc(events, n);
      assert events[..n + 1] == events;
      FragmentsOfOne(Translated(events[..n]), Yielded(events[n], ToolBlocks(events[..n])), index);
      OpenedSnoc(Owned(events[..n], index), events[n]);
      assert OwnedFragments(Owned(events[..n], index)) + [] == OwnedFragments(Owned(events[..n], index));
    }
  }

  lemma NoOwnedFragments(index: int)
    ensures Fragments([], index) == [] && OwnedFragments([]) == []
  {
  }

  lemma FragmentsOfOne(before: seq<ChatDelta>, yielded: seq<ChatDelta>, index: int)
    requires |yielded| <= 1
    ensures Fragments(before + yielded, index) ==
      if yielded == [] then Fragments(before, index) else Extended(Fragments(before, index), yielded[0], index)
  {
    if yielded == [] {
      assert before + yielded == before;
    } else {
      assert (before + yielded)[..|before|] == before;
    }
  }

  lemma {:induction false} PartsAssemble(index: int, b: ToolBlock)
    ensures var fs := OwnedFragments(BlockEvents(index, b));
      fs != [] && Assembled(fs) == PartialOf(b)
    ensures Opened(BlockEvents(index, b))
    decreases |b.parts|
  {
    var es := BlockEvents(index, b);
    AssembledNone();
    if b.parts == [] {
      assert es == [BlockStart(index, ToolUse(b.id, b.name))] && es[..0] == [];
      AssembledSnoc([], Fragment(Some(b.id), Some(b.name), ""));
      assert [] + [Fragment(Some(b.id), Some(b.name), "")] == [Fragment(Some(b.id), Some(b.name), "")];
    } else {
      var n := |b.parts| - 1;
      var shorter := b.(parts := b.parts[..n]);
      PartsAssemble(index, shorter);
      assert es[..|es| - 1] == BlockEvents(index, shorter);
      AssembledSnoc(OwnedFragments(BlockEvents(index, shorter)), Fragment(None, None, b.parts[n]));
      assert b.parts[..n] + [b.parts[n]] == b.parts;
      ConcatSnoc(b.parts[..n], b.parts[n]);
    }
  }

  /** The k-th event carries the last stop reason of the stream. */
  predicate StopsAt(events: seq<StreamEvent>, k: nat, reason: string)
  {
    && k < |events| && events[k] == MessageDelta(Some(reason)) && reason != ""
    && forall j :: k < j < |events| ==> !events[j].MessageDelta? || events[j].stopReason in {None, Some("")}
  }

  lemma {:induction false} StopReasonIsTheLast(events: seq<StreamEvent>, k: nat, reason: string)
    requires StopsAt(events, k, reason)
    ensures StopReason(events) == MappedReason(reason)
    ensures reason == "end_turn" ==> StopReason(events) == "stop"
    ensures reason == "max_tokens" ==> StopReason(events) == "length"
    ensures reason == "tool_use" ==> StopReason(events) == "tool_calls"
  {
    var n := |events| - 1;
    if k < n {
      assert StopsAt(events[..n], k, reason);
      StopReasonIsTheLast(events[..n], k, reason);
    }
  }

  /** A completed response asks for exactly its blocks, and the loop goes on just when it stopped for tool use. */
  lemma ToolUseRunsTheBlocks(events: seq<StreamEvent>, blocks: map<int, ToolBlock>, k: nat, reason: string)
    requires Carries(events, blocks) && blocks != map[] && StopsAt(events, k, reason)
    ensures var s := Stream(true, Translated(events) + [Done(StopReason(events))], false);
      && CallsOf(s.deltas) == BlockCalls(blocks)
      && (Continues(s) <==> reason == "tool_use" || reason == "tool_calls")
  {
    hide CallsOf, Translated, StopReason, StopsAt;
    BlocksSurvive(events, blocks, StopReason(events));
    StopReasonIsTheLast(events, k, reason);
    assert blocks.Keys != {};
    Inhabited(blocks.Keys);
  }

  /**
   * A stream broken off by a cancellation is the last of its turn, whatever tool calls it had begun: none of them is
   * executed or recorded, and the turn ends with what was streamed so far.
   */
  lemma CancelledStreamEndsTheTurn(w: World, phrases: Phrases, events: seq<OrchEvent>, end: TurnEnd, k: nat,
                                   seen: seq<StreamEvent>)
    requires IsTurn(w, phrases, events, end) && k < MAX_TOOL_ITERATIONS
    requires w.provider(k) == Stream(true, Translated(seen) + [Done("cancelled")], false)
    ensures !end.LoopExceeded? && end.rounds <= k
    ensures RoundsRan(w, k) ==>
      && end == Final(k) && events != []
      && events[|events| - 1] ==
         OrchDone(Concat(Texts(w, k + 1)), "cancelled", Log(w, k) + [Reply(Concat(Texts(w, k + 1)))])
  {
    hide CallsOf, Translated, Events, TextEvents, TextsOf, Log, Texts, Concat;
    var deltas := w.provider(k).deltas;
    assert deltas[|Translated(seen)|] == Done("cancelled");
    LastReason(Translated(seen));
    var r := Completed(end);
    assert r > k ==> Continues(w.provider(k));
    RanUpTo(w, k, r);
  }

  /** How many rounds a turn has completed. */
  function Completed(end: TurnEnd): nat
  {
    if end.LoopExceeded? then MAX_TOOL_ITERATIONS else end.rounds
  }

  lemma RanUpTo(w: World, k: nat, r: nat)
    ensures RoundsRan(w, k) && r < k ==> Continues(w.provider(r))
  {
  }

  lemma LastReason(before: seq<ChatDelta>)
    ensures FinishReason(before + [Done("cancelled")]) == "cancelled"
  {
  }

  /** The texts of the text blocks, in order. */
  function TextParts(events: seq<StreamEvent>): seq<string>
  {
    if events == [] then []
    else if events[0].TextPart? then [events[0].text] + TextParts(events[1..])
    else TextParts(events[1..])
  }

  lemma {:induction false} TextPartsSnoc(events: seq<StreamEvent>, e: StreamEvent)
    ensures TextParts(events + [e]) == TextParts(events) + if e.TextPart? then [e.text] else []
  {
    if events != [] {
      assert (events + [e])[1..] == events[1..] + [e];
      TextPartsSnoc(events[1..], e);
    }
  }

  /** The listener gets every text piece of the response and nothing of its thinking. */
  lemma {:induction false} TextSurvives(events: seq<StreamEvent>, reason: string)
    ensures TextsOf(Translated(events) + [Done(reason)]) == TextParts(events)
    decreases |events|
  {
    hide ToolBlocks, TextParts, TextsOf, Translated, StopReason;
    TextsAfter(Translated(events), [Done(reason)]);
    if events != [] {
      var n := |events| - 1;
      BlocksSnoc(events, n);
      assert events[..n + 1] == events;
      TextSurvives(events[..n], reason);
      TextsAfter(Translated(events[..n]), [Done(reason)]);
      TextsAfter(Translated(events[..n]), Yielded(events[n], ToolBlocks(events[..n])));
      TextPartsSnoc(events[..n], events[n]);
      assert events == events[..n] + [events[n]];
    } else {
      NothingTranslated();
      NoParts();
    }
  }

  lemma NoParts()
    ensures TextParts([]) == [] && TextsOf([]) == []
  {
  }

  lemma TextsAfter(before: seq<ChatDelta>, yielded: seq<ChatDelta>)
    requires |yielded| <= 1
    ensures TextsOf(before + yielded) ==
      if yielded != [] && yielded[0].TextDelta? then TextsOf(before) + [yielded[0].text] else TextsOf(before)
  {
    if yielded == [] {
      assert before + yielded == before;
    } else {
      assert (before + yielded)[..|before|] == before;
    }
  }

  // ---------- from the conversation to API messages ----------

  datatype Input = EmptyObject | Parsed(source: string)

  datatype ApiBlock =
    | ToolResultBlock(toolUseId: Option<string>, result: string)
    | TextBlock(text: string)
    | ToolUseBlock(id: string, name: string, input: Input)

  datatype ApiMessage = Plain(role: Role, content: string) | Blocks(role: Role, blocks: seq<ApiBlock>)

  /** `system` prompts are sent apart, joined by blank lines; the others keep their order. */
  method SplitSystem(ms: seq<Message>) returns (system: seq<string>, rest: seq<Message>)
    ensures system == SystemParts(ms) && rest == Others(ms)
  {
    system, rest := [], [];
    for i := 0 to |ms|
      invariant system == SystemParts(ms[..i]) && rest == Others(ms[..i])
    {
      assert ms[..i + 1][..i] == ms[..i];
      if ms[i].role == System {
        system := system + [ms[i].content];
      } else {
        rest := rest + [ms[i]];
      }
    }
    assert ms[..|ms|] == ms;
  }

  function SystemParts(ms: seq<Message>): seq<string>
  {
    if ms == [] then []
    else
      var n := |ms| - 1;
      SystemParts(ms[..n]) + if ms[n].role == System then [ms[n].content] else []
  }

  function Others(ms: seq<Message>): seq<Message>
  {
    if ms == [] then []
    else
      var n := |ms| - 1;
      Others(ms[..n]) + if ms[n].role == System then [] else [ms[n]]
  }

  /** An orchestrator request splits back into its prompt and the conversation. */
  lemma {:induction false} RequestSplits(system: string, rest: seq<Message>)
    requires forall i :: 0 <= i < |rest| ==> rest[i].role != System
    ensures SystemParts([SystemMessage(system)] + rest) == [system]
    ensures Others([SystemMessage(system)] + rest) == rest
  {
    var ms := [SystemMessage(system)] + rest;
    var n := |ms| - 1;
    if rest == [] {
      assert ms[..0] == [];
    } else {
      assert ms[..n] == [SystemMessage(system)] + rest[..|rest| - 1];
      RequestSplits(system, rest[..|rest| - 1]);
    }
  }

  /** Whether the arguments of every call of `m` parse, `valid` being the JSON grammar. */
  predicate Parses(m: Message, valid: string -> bool)
  {
    AsksForTools(m) ==>
      forall i :: 0 <= i < |m.toolCalls.value| ==>
        m.toolCalls.value[i].arguments == "" || valid(m.toolCalls.value[i].arguments)
  }

  function UseBlocks(calls: seq<ToolCall>): seq<ApiBlock>
  {
    seq(|calls|, i requires 0 <= i < |calls| =>
      ToolUseBlock(calls[i].id, calls[i].name,
                   if calls[i].arguments == "" then EmptyObject else Parsed(calls[i].arguments)))
  }

  function ApiForm(m: Message): ApiMessage
  {
    if m.role == Tool then Blocks(User, [ToolResultBlock(m.toolCallId, m.content)])
    else if AsksForTools(m) then
      Blocks(Assistant, (if m.content != "" then [TextBlock(m.content)] else []) + UseBlocks(m.toolCalls.value))
    else Plain(m.role, m.content)
  }

  /** What the orchestrator and the chat store produce: calls only where they count, ids only on results. */
  predicate Conversational(m: Message)
  {
    if m.role == Tool then m.toolCalls.None?
    else m.toolCallId.None? && (m.toolCalls.Some? ==> AsksForTools(m))
  }

  /** The API form tells such messages apart, up to what parsing makes of the arguments' text. */
  lemma ApiFormKeepsMessages(a: Message, b: Message)
    requires Conversational(a) && Conversational(b) && ApiForm(a) == ApiForm(b)
    ensures a.role == b.role && a.content == b.content && a.toolCallId == b.toolCallId
    ensures a.toolCalls == b.toolCalls
  {
    hide UseBlocks;
    if AsksForTools(a) && a.role != Tool {
      var ca, cb := a.toolCalls.value, b.toolCalls.value;
      UseBlocksKeep(ca, cb);
      SplitTexts(a.content, ca, b.content, cb);
    }
  }

  lemma UseBlocksKeep(a: seq<ToolCall>, b: seq<ToolCall>)
    ensures UseBlocks(a) == UseBlocks(b) ==> a == b
  {
    if UseBlocks(a) == UseBlocks(b) {
      assert |a| == |UseBlocks(a)| == |UseBlocks(b)| == |b|;
      forall i | 0 <= i < |a| ensures a[i] == b[i] {
        assert UseBlocks(a)[i] == UseBlocks(b)[i];
      }
    }
  }

  lemma SplitTexts(a: string, ca: seq<ToolCall>, b: string, cb: seq<ToolCall>)
    requires ca != [] && cb != []
    requires (if a != "" then [TextBlock(a)] else []) + UseBlocks(ca) ==
             (if b != "" then [TextBlock(b)] else []) + UseBlocks(cb)
    ensures a == b && UseBlocks(ca) == UseBlocks(cb)
  {
    var ua, ub := UseBlocks(ca), UseBlocks(cb);
    assert ua[0].ToolUseBlock? && ub[0].ToolUseBlock?;
    hide UseBlocks;
    var fa, fb := (if a != "" then [TextBlock(a)] else []) + ua, (if b != "" then [TextBlock(b)] else []) + ub;
    assert fa[0].TextBlock? <==> a != "";
    assert fb[0].TextBlock? <==> b != "";
    assert ua == if a != "" then fa[1..] else fa;
    assert ub == if b != "" then fb[1..] else fb;
  }

  /** `None` is the exception `json.loads` raises; it leaves `_to_anthropic_messages` and the whole call. */
  method ToApiMessages(ms: seq<Message>, valid: string -> bool) returns (r: Option<seq<ApiMessage>>)
    ensures r.Some? <==> forall i :: 0 <= i < |ms| ==> Parses(ms[i], valid)
    ensures r.Some? ==> |r.value| == |ms| && forall i :: 0 <= i < |ms| ==>
      r.value[i] == ApiForm(ms[i]) && r.value[i].role == if ms[i].role == Tool then User else ms[i].role
  {
    hide UseBlocks;
    NoUseBlocks();
    var out: seq<ApiMessage> := [];
    for i := 0 to |ms|
      invariant |out| == i
      invariant forall k :: 0 <= k < i ==> Parses(ms[k], valid) && out[k] == ApiForm(ms[k])
    {
      var m := ms[i];
      if m.role == Tool {
        out := out + [Blocks(User, [ToolResultBlock(m.toolCallId, m.content)])];
        continue;
      }
      if AsksForTools(m) {
        var blocks := if m.content != "" then [TextBlock(m.content)] else [];
        assert blocks + [] == blocks;
        var calls := m.toolCalls.value;
        for j := 0 to |calls|
          invariant blocks == (if m.content != "" then [TextBlock(m.content)] else []) + UseBlocks(calls[..j])
          invariant forall k :: 0 <= k < j ==> calls[k].arguments == "" || valid(calls[k].arguments)
        {
          if calls[j].arguments != "" && !valid(calls[j].arguments) {
            assert !Parses(ms[i], valid);
            return None;
          }
          UseBlocksSnoc(calls, j);
          var block := ToolUseBlock(calls[j].id, calls[j].name,
            if calls[j].arguments == "" then EmptyObject else Parsed(calls[j].arguments));
          Associative(if m.content != "" then [TextBlock(m.content)] else [], UseBlocks(calls[..j]), [block]);
          blocks := blocks + [block];
        }
        assert calls[..|calls|] == calls;
        out := out + [Blocks(Assistant, blocks)];
        continue;
      }
      out := out + [Plain(m.role, m.content)];
    }
    return Some(out);
  }

  lemma NoUseBlocks()
    ensures UseBlocks([]) == []
  {
  }

  lemma UseBlocksSnoc(calls: seq<ToolCall>, j: nat)
    requires j < |calls|
    ensures UseBlocks(calls[..j + 1]) == UseBlocks(calls[..j]) + [ToolUseBlock(calls[j].id, calls[j].name,
      if calls[j].arguments == "" then EmptyObject else Parsed(calls[j].arguments))]
  {
    assert calls[..j + 1][..j] == calls[..j];
  }

  // ---------- malformed arguments ----------

  predicate Converts(ms: seq<Message>, valid: string -> bool)
  {
    forall i :: 0 <= i < |ms| ==> Parses(ms[i], valid)
  }

  /** The i-th provider call asks for a tool with arguments that do not parse. */
  predicate Broken(w: World, i: nat, valid: string -> bool)
  {
    exists c :: c in CallsOf(w.provider(i).deltas) && c.arguments != "" && !valid(c.arguments)
  }

  /** The loop reaches and completes round `k`, and it is the first broken one. */
  ghost predicate FirstBroken(w: World, k: nat, valid: string -> bool)
  {
    RoundsRan(w, k + 1) && Broken(w, k, valid) && forall i :: 0 <= i < k ==> !Broken(w, i, valid)
  }

  /** The provider raises for one reason only, before its first delta: its request does not convert. */
  ghost predicate RaisesOnConversion(w: World, history: seq<Message>, valid: string -> bool)
  {
    forall i :: 0 <= i < MAX_TOOL_ITERATIONS ==>
      && (w.provider(i).raises <==> !Converts(history + Log(w, i), valid))
      && (w.provider(i).raises ==> w.provider(i).arrives && w.provider(i).deltas == [])
  }

  lemma ConvertsAppend(a: seq<Message>, b: seq<Message>, valid: string -> bool)
    ensures Converts(a + b, valid) <==> Converts(a, valid) && Converts(b, valid)
  {
    hide Parses;
    if Converts(a + b, valid) {
      assert forall i :: 0 <= i < |a| ==> (a + b)[i] == a[i];
      assert forall i :: 0 <= i < |b| ==> (a + b)[|a| + i] == b[i];
    }
  }

  lemma RoundConverts(w: World, k: nat, valid: string -> bool)
    ensures Converts(RoundLog(w, k), valid) <==> !Broken(w, k, valid)
  {
    hide CallsOf, TextsOf;
    var calls := CallsOf(w.provider(k).deltas);
    var asks := CallMessage(Concat(TextsOf(w.provider(k).deltas)), calls);
    var results := Results(w, k, calls);
    ConvertsAppend([asks], results, valid);
    forall i | 0 <= i < |results| ensures Parses(results[i], valid) {
      assert results[i] == ResultMessage(w.tools(k, i).content, calls[i].id);
    }
    assert [asks][0] == asks;
    if Parses(asks, valid) {
      forall c | c in calls ensures c.arguments == "" || valid(c.arguments) {
        var i :| 0 <= i < |calls| && calls[i] == c;
      }
    } else {
      var i :| 0 <= i < |calls| && calls[i].arguments != "" && !valid(calls[i].arguments);
      assert calls[i] in calls;
    }
  }

  /** The messages of the first `k` rounds convert exactly when none of those rounds was broken. */
  lemma {:induction false} LogConverts(w: World, k: nat, valid: string -> bool)
    ensures Converts(Log(w, k), valid) <==> forall i :: 0 <= i < k ==> !Broken(w, i, valid)
  {
    hide Converts, Broken, RoundLog, Log;
    if k == 0 {
      NothingToConvert(w, valid);
    } else {
      LogConverts(w, k - 1, valid);
      LogStep(w, k - 1);
      ConvertsAppend(Log(w, k - 1), RoundLog(w, k - 1), valid);
      RoundConverts(w, k - 1, valid);
    }
  }

  lemma NothingToConvert(w: World, valid: string -> bool)
    ensures Converts(Log(w, 0), valid)
  {
  }

  lemma RaisesFromBroken(w: World, history: seq<Message>, valid: string -> bool, i: nat)
    requires RaisesOnConversion(w, history, valid) && i < MAX_TOOL_ITERATIONS
    ensures w.provider(i).raises <==> !Converts(history, valid) || exists j :: 0 <= j < i && Broken(w, j, valid)
    ensures w.provider(i).raises ==> !TimesOut(w.provider(i)) && !Continues(w.provider(i))
  {
    hide Converts, Broken, Log, CallsOf, FinishReason;
    ConvertsAppend(history, Log(w, i), valid);
    LogConverts(w, i, valid);
  }

  /** A stream that raises ends the turn there. */
  lemma RaisingEndsTheTurn(w: World, phrases: Phrases, events: seq<OrchEvent>, end: TurnEnd, k: nat)
    requires IsTurn(w, phrases, events, end) && k < MAX_TOOL_ITERATIONS
    ensures end == ProviderFailed(k) <==>
      RoundsRan(w, k) && w.provider(k).raises && !TimesOut(w.provider(k))
  {
    hide CallsOf, FinishReason, Events, TextEvents, TextsOf, Log, Texts, Concat;
    var r := Completed(end);
    RanUpTo(w, k, r);
    assert r > k ==> Continues(w.provider(k));
  }

  /**
   * The tool registry answers malformed arguments with an error result and the loop goes on. On this provider the
   * turn then ends in an exception, and it does so right after round `k` exactly when `k` is the first broken round
   * and one of the first four. In the fifth round there is no further request: the turn ends normally, and what it
   * stores does not convert. A history that does not convert ends every turn at its first request.
   */
  lemma MalformedArgumentsEndTheTurn(w: World, phrases: Phrases, events: seq<OrchEvent>, end: TurnEnd,
                                     history: seq<Message>, valid: string -> bool)
    requires IsTurn(w, phrases, events, end) && RaisesOnConversion(w, history, valid)
    ensures end == ProviderFailed(0) <==> !Converts(history, valid)
    ensures Converts(history, valid) ==> forall k :: 0 <= k < 4 ==>
      (end == ProviderFailed(k + 1) <==> FirstBroken(w, k, valid))
    ensures end.Final? || end.LoopExceeded? ==>
      && events != [] && events[|events| - 1].OrchDone?
      && (Converts(events[|events| - 1].newMessages, valid) <==> !(end.LoopExceeded? && Broken(w, 4, valid)))
  {
    hide IsTurn, Broken, Converts, Log, RaisesOnConversion, TimesOut, Continues, IsRounds, Paired, FirstBroken;
    RaisingEndsTheTurn(w, phrases, events, end, 0);
    RaisesFromBroken(w, history, valid, 0);
    if Converts(history, valid) {
      forall k | 0 <= k < 4
        ensures end == ProviderFailed(k + 1) <==> FirstBroken(w, k, valid)
      {
        FailsAfterRound(w, phrases, events, end, history, valid, k);
      }
    }
    if end.Final? || end.LoopExceeded? {
      DoneIsWellFormed(w, phrases, events, end);
      StoredConverts(w, phrases, events, end, history, valid);
    }
  }

  lemma FailsAfterRound(w: World, phrases: Phrases, events: seq<OrchEvent>, end: TurnEnd,
                        history: seq<Message>, valid: string -> bool, k: nat)
    requires IsTurn(w, phrases, events, end) && RaisesOnConversion(w, history, valid) && Converts(history, valid)
    requires k < 4
    ensures end == ProviderFailed(k + 1) <==> FirstBroken(w, k, valid)
  {
    hide IsTurn, Broken, Converts, Log, RaisesOnConversion, TimesOut, Continues;
    RaisingEndsTheTurn(w, phrases, events, end, k + 1);
    RaisesFromBroken(w, history, valid, k + 1);
    RaisesFromBroken(w, history, valid, k);
    if RoundsRan(w, k + 1) {
      assert Continues(w.provider(k));
    }
  }

  lemma StoredConverts(w: World, phrases: Phrases, events: seq<OrchEvent>, end: TurnEnd,
                       history: seq<Message>, valid: string -> bool)
    requires IsTurn(w, phrases, events, end) && RaisesOnConversion(w, history, valid)
    requires (end.Final? || end.LoopExceeded?) && events != [] && events[|events| - 1].OrchDone?
    ensures Converts(events[|events| - 1].newMessages, valid) <==> !(end.LoopExceeded? && Broken(w, 4, valid))
  {
    var k := if end.LoopExceeded? then MAX_TOOL_ITERATIONS else end.rounds;
    var done := events[|events| - 1];
    hide IsTurn, Broken, Converts, Log, RaisesOnConversion, TimesOut, Continues;
    DoneMessages(w, phrases, events, end);
    ReplyConverts(done.text, valid);
    ConvertsAppend(Log(w, k), [Reply(done.text)], valid);
    LogUpTo(w, history, valid, if end.LoopExceeded? then 4 else k, k);
  }

  lemma LogUpTo(w: World, history: seq<Message>, valid: string -> bool, last: nat, k: nat)
    requires RaisesOnConversion(w, history, valid) && last < MAX_TOOL_ITERATIONS && !w.provider(last).raises
    requires last <= k <= last + 1
    ensures Converts(Log(w, k), valid) <==> k == last || !Broken(w, last, valid)
  {
    hide Broken, Converts, Log, RaisesOnConversion, TimesOut, Continues;
    LogConverts(w, k, valid);
    RaisesFromBroken(w, history, valid, last);
  }

  lemma DoneMessages(w: World, phrases: Phrases, events: seq<OrchEvent>, end: TurnEnd)
    requires IsTurn(w, phrases, events, end) && (end.Final? || end.LoopExceeded?)
    ensures events != [] && events[|events| - 1].OrchDone?
    ensures var k := if end.LoopExceeded? then MAX_TOOL_ITERATIONS else end.rounds;
      && events[|events| - 1].newMessages == Log(w, k) + [Reply(events[|events| - 1].text)]
      && !w.provider(if end.LoopExceeded? then 4 else k).raises
  {
    hide Log, Events, TextsOf, Texts, TimesOut, FinishReason, CallsOf;
    assert end.LoopExceeded? ==> Continues(w.provider(4));
  }

  lemma ReplyConverts(text: string, valid: string -> bool)
    ensures Converts([Reply(text)], valid)
  {
  }

  // ---------- two such turns ----------

  function OneCall(arguments: string): seq<ChatDelta>
  {
    [ToolCallDelta(0, Some("a"), Some("f"), arguments), Done("tool_calls")]
  }

  lemma OneCallContinues(arguments: string)
    ensures CallsOf(OneCall(arguments)) == [ToolCall("a", "f", arguments)]
    ensures Continues(Stream(true, OneCall(arguments), false))
  {
    var ds := OneCall(arguments);
    var f := Fragment(Some("a"), Some("f"), arguments);
    assert ds[..1] == [ds[0]] && ds[..1][..0] == [];
    assert Fragments(ds[..0], 0) == [];
    assert Fragments(ds[..1], 0) == [] + [f];
    assert Fragments(ds, 0) == [f];
    AssembledNone();
    AssembledSnoc([], f);
    assert [] + [f] == [f] && "" + arguments == arguments;
    OneIndex(ds);
    SortedOne();
  }

  lemma SortedOne()
    ensures Sorted({0}) == [0]
  {
    assert {0} - {0} == {};
  }

  lemma OneIndex(ds: seq<ChatDelta>)
    requires |ds| == 2 && ds[0].ToolCallDelta? && ds[0].index == 0 && ds[1].Done?
    ensures Indices(ds) == {0}
  {
    assert ds[0] in ds;
  }

  /** Five rounds of one call each, the last with an unfinished object. */
  function BreaksLast(): World
  {
    World(i => Stream(true, OneCall(if i < 4 then "{}" else "{"), false), (i, j) => ToolResult(false, ""))
  }

  /** One round with an unfinished object, and no request after it that converts. */
  function BreaksFirst(): World
  {
    World(i => if i == 0 then Stream(true, OneCall("{"), false) else Stream(true, [], true),
          (i, j) => ToolResult(false, ""))
  }

  lemma BreaksFirstRaises(valid: string -> bool)
    requires !valid("{")
    ensures RoundsRan(BreaksFirst(), 1) && Broken(BreaksFirst(), 0, valid)
    ensures RaisesOnConversion(BreaksFirst(), [], valid) && Converts([], valid)
  {
    var w := BreaksFirst();
    OneCallContinues("{");
    hide CallsOf, FinishReason, Log, Converts;
    assert ToolCall("a", "f", "{") in CallsOf(w.provider(0).deltas);
    assert Broken(w, 0, valid);
    NothingToConvert(w, valid);
    NoRounds(w);
    forall i | 0 <= i < MAX_TOOL_ITERATIONS ensures w.provider(i).raises <==> !Converts([] + Log(w, i), valid) {
      LogConverts(w, i, valid);
      assert [] + Log(w, i) == Log(w, i);
    }
  }

  lemma BreaksLastRaises(valid: string -> bool)
    requires valid("{}") && !valid("{")
    ensures RoundsRan(BreaksLast(), 5) && Broken(BreaksLast(), 4, valid)
    ensures RaisesOnConversion(BreaksLast(), [], valid)
  {
    var w := BreaksLast();
    OneCallContinues("{");
    OneCallContinues("{}");
    hide CallsOf, FinishReason, Log, Converts;
    assert ToolCall("a", "f", "{") in CallsOf(w.provider(4).deltas);
    forall i | 0 <= i < MAX_TOOL_ITERATIONS ensures w.provider(i).raises <==> !Converts([] + Log(w, i), valid) {
      LogConverts(w, i, valid);
      assert [] + Log(w, i) == Log(w, i);
    }
  }

  lemma LoopRuns(w: World, phrases: Phrases, events: seq<OrchEvent>, end: TurnEnd)
    requires IsTurn(w, phrases, events, end) && RoundsRan(w, 5)
    ensures end == LoopExceeded
  {
    hide CallsOf, FinishReason, Events, TextEvents, TextsOf, Log, Texts, Concat;
    assert !end.LoopExceeded? ==> Continues(w.provider(end.rounds));
  }

  /** The same malformed call ends the turn in an exception when it comes first, and is stored when it comes last. */
  lemma MalformedFirstOrLast(phrases: Phrases, valid: string -> bool, first: TurnEnd, last: TurnEnd,
                             events: seq<OrchEvent>, lastEvents: seq<OrchEvent>)
    requires valid("{}") && !valid("{")
    requires IsTurn(BreaksFirst(), phrases, events, first) && IsTurn(BreaksLast(), phrases, lastEvents, last)
    ensures first == ProviderFailed(1)
    ensures last == LoopExceeded && lastEvents != [] && lastEvents[|lastEvents| - 1].OrchDone?
    ensures !Converts(lastEvents[|lastEvents| - 1].newMessages, valid)
  {
    hide IsTurn, Converts, Broken, Log, RaisesOnConversion, CallsOf;
    BreaksFirstRaises(valid);
    MalformedArgumentsEndTheTurn(BreaksFirst(), phrases, events, first, [], valid);
    assert FirstBroken(BreaksFirst(), 0, valid);
    BreaksLastRaises(valid);
    MalformedArgumentsEndTheTurn(BreaksLast(), phrases, lastEvents, last, [], valid);
    LoopRuns(BreaksLast(), phrases, lastEvents, last);
  }
}
