/** Conversation sessions: what a turn leaves in the database and what the next one reads back. */
module Chat {
  import opened Text
  import opened Llm
  import opened Orchestrator

  const SESSION_IDLE_MICROSECONDS := 180_000_000
  const CONTEXT_MESSAGE_LIMIT: nat := 20
  const SUMMARY_TRIGGER_COUNT: nat := 30
  const SUMMARY_LIMIT: nat := 2000

  /** One entry of the `tool_calls` column. */
  datatype StoredCall = StoredCall(id: Option<string>, name: string, arguments: string)

  datatype Row = Row(session: nat, role: Role, content: string, toolCalls: Option<seq<StoredCall>>)

  datatype Session = Session(hub: nat, summary: Option<string>, lastActive: int)

  // ---------- messages to rows and back ----------

  function StoredCalls(calls: seq<ToolCall>): seq<StoredCall>
  {
    seq(|calls|, i requires 0 <= i < |calls| => StoredCall(Some(calls[i].id), calls[i].name, calls[i].arguments))
  }

  function Encoded(session: nat, m: Message): Row
  {
    Row(session, m.role, m.content,
        if m.role == Tool then Some([StoredCall(m.toolCallId, "", "")])
        else if m.toolCalls.Some? && m.toolCalls.value != [] then Some(StoredCalls(m.toolCalls.value))
        else None)
  }

  function OrEmpty(s: Option<string>): string { if s.Some? then s.value else "" }

  function LoadedCalls(calls: seq<StoredCall>): seq<ToolCall>
  {
    seq(|calls|, i requires 0 <= i < |calls| => ToolCall(OrEmpty(calls[i].id), calls[i].name, calls[i].arguments))
  }

  function Decoded(row: Row): Message
  {
    var calls := if row.toolCalls.Some? then row.toolCalls.value else [];
    if row.role == Tool then Message(Tool, row.content, None, if calls != [] then calls[0].id else None)
    else Message(row.role, row.content, if calls != [] then Some(LoadedCalls(calls)) else None, None)
  }

  /** A result without calls, or anything else without a result id and without an empty call list. */
  predicate Storable(m: Message)
  {
    if m.role == Tool then m.toolCalls.None? else m.toolCallId.None? && m.toolCalls != Some([])
  }

  /** The columns keep a message exactly when it is storable. */
  lemma RoundTrip(session: nat, m: Message)
    ensures Decoded(Encoded(session, m)) == m <==> Storable(m)
  {
    if m.toolCalls.Some? {
      assert LoadedCalls(StoredCalls(m.toolCalls.value)) == m.toolCalls.value;
    }
  }

  function EncodedAll(session: nat, ms: seq<Message>): seq<Row>
  {
    seq(|ms|, i requires 0 <= i < |ms| => Encoded(session, ms[i]))
  }

  function DecodedAll(rows: seq<Row>): seq<Message>
  {
    seq(|rows|, i requires 0 <= i < |rows| => Decoded(rows[i]))
  }

  // ---------- queries ----------

  /** Rows of one session, by ascending id. */
  function RowsOf(rows: seq<Row>, session: nat): seq<Row>
  {
    if rows == [] then []
    else
      var n := |rows| - 1;
      RowsOf(rows[..n], session) + if rows[n].session == session then [rows[n]] else []
  }

  /** What a session puts before the model: its last messages. */
  function ContextOf(rows: seq<Row>, session: nat): seq<Message>
  {
    DecodedAll(LastN(RowsOf(rows, session), CONTEXT_MESSAGE_LIMIT))
  }

  function Reversed<T>(s: seq<T>): (r: seq<T>)
    ensures |r| == |s|
  {
    if s == [] then [] else [s[|s| - 1]] + Reversed(s[..|s| - 1])
  }

  /** `ORDER BY id DESC LIMIT n`, put back into ascending order. */
  function RecentMessages(rows: seq<Row>, session: nat, limit: nat): seq<Row>
  {
    var newestFirst := Reversed(RowsOf(rows, session));
    Reversed(if |newestFirst| <= limit then newestFirst else newestFirst[..limit])
  }

  lemma {:induction false} ReversedAt<T>(s: seq<T>, i: nat)
    requires i < |s|
    ensures Reversed(s)[i] == s[|s| - 1 - i]
  {
    if i > 0 {
      ReversedAt(s[..|s| - 1], i - 1);
    }
  }

  /** The query returns the latest rows of the session, oldest first. */
  lemma RecentIsLast(rows: seq<Row>, session: nat, limit: nat)
    ensures RecentMessages(rows, session, limit) == LastN(RowsOf(rows, session), limit)
  {
    hide RowsOf;
    var all := RowsOf(rows, session);
    var taken := if |all| <= limit then Reversed(all) else Reversed(all)[..limit];
    forall i | 0 <= i < |taken| ensures Reversed(taken)[i] == LastN(all, limit)[i] {
      ReversedAt(taken, i);
      ReversedAt(all, |taken| - 1 - i);
    }
  }

  /** The hub's session with the highest id. */
  function Latest(sessions: seq<Session>, hub: nat): (r: Option<nat>)
    ensures r.Some? ==> r.value < |sessions| && sessions[r.value].hub == hub
    ensures r.Some? ==> forall i :: r.value < i < |sessions| ==> sessions[i].hub != hub
    ensures r.None? ==> forall i :: 0 <= i < |sessions| ==> sessions[i].hub != hub
  {
    if sessions == [] then None
    else if sessions[|sessions| - 1].hub == hub then Some(|sessions| - 1)
    else Latest(sessions[..|sessions| - 1], hub)
  }

  predicate Fresh(s: Session, now: int)
  {
    now - s.lastActive < SESSION_IDLE_MICROSECONDS
  }

  /** The hub has a session that a turn at time `now` continues. */
  predicate Ongoing(sessions: seq<Session>, hub: nat, now: int)
  {
    Latest(sessions, hub).Some? && Fresh(sessions[Latest(sessions, hub).value], now)
  }

  /** The sessions once a turn at time `now` has looked its own up, and opened one when there is none to continue. */
  function Opened(sessions: seq<Session>, hub: nat, now: int): seq<Session>
  {
    if Ongoing(sessions, hub, now) then sessions else sessions + [Session(hub, None, now)]
  }

  /** The summary of a session that has yet to be opened is none. */
  function SummaryOf(sessions: seq<Session>, session: nat): Option<string>
  {
    if session < |sessions| then sessions[session].summary else None
  }

  /**
   * What storing a turn at time `now` does to the sessions: the hub's latest one takes it if it was active less than
   * three minutes ago, else a new one; that session is active now, and every other one stays as it was. Its summary
   * rolls only if there is a summary call, which takes more than thirty rows.
   */
  ghost predicate TurnStored(before: seq<Session>, after: seq<Session>, rows: seq<Row>, session: nat, hub: nat,
                             now: int, call: Option<SummaryCall>)
  {
    && session < |after| && after[session].hub == hub && after[session].lastActive == now
    && |before| <= |after| && (forall i :: 0 <= i < |before| && i != session ==> after[i] == before[i])
    && (if Latest(before, hub).Some? && now - before[Latest(before, hub).value].lastActive < 180_000_000
        then Latest(before, hub) == Some(session) && |after| == |before|
        else session == |before| && |after| == |before| + 1)
    && var summary := SummaryOf(before, session);
       if call.Some? && |RowsOf(rows, session)| > 30 && (call.value.raises ==> DoneSeen(call.value.deltas))
       then after[session].summary == Rolled(summary, Concat(TextsOf(UntilDone(call.value.deltas))))
       else after[session].summary == summary
  }

  lemma CommittedTurn(before: seq<Session>, found: seq<Session>, rows: seq<Row>, session: nat, hub: nat, now: int)
    requires found == Opened(before, hub, now) && Latest(found, hub) == Some(session)
    ensures TurnStored(before, found[session := found[session].(lastActive := now)], rows, session, hub, now, None)
  {
    hide RowsOf, Rolled, UntilDone, DoneSeen, TextsOf, Concat;
  }

  lemma SummarisedTurn(before: seq<Session>, committed: seq<Session>, after: seq<Session>, rows: seq<Row>, session: nat,
                       hub: nat, now: int, call: SummaryCall)
    requires TurnStored(before, committed, rows, session, hub, now, None)
    requires after == AfterSummary(committed, rows, session, call)
    ensures TurnStored(before, after, rows, session, hub, now, Some(call))
  {
    hide RowsOf, Rolled, UntilDone, DoneSeen, TextsOf, Concat, Latest;
  }

  function AfterSummary(sessions: seq<Session>, rows: seq<Row>, session: nat, call: SummaryCall): seq<Session>
    requires session < |sessions|
  {
    if |RowsOf(rows, session)| <= SUMMARY_TRIGGER_COUNT || (call.raises && !DoneSeen(call.deltas)) then sessions
    else
      sessions[session := sessions[session].(summary :=
        Rolled(sessions[session].summary, Concat(TextsOf(UntilDone(call.deltas)))))]
  }

  // ---------- the store ----------

  /** `deltas` is what the summary call yields before it ends or raises. */
  datatype SummaryCall = SummaryCall(deltas: seq<ChatDelta>, raises: bool)

  class ChatStore {
    var sessions: seq<Session>
    var rows: seq<Row>

    constructor ()
      ensures sessions == [] && rows == []
    {
      sessions, rows := [], [];
    }

    method GetOrCreateSession(hub: nat, now: int) returns (id: nat)
      modifies this`sessions
      ensures
        var latest := Latest(old(sessions), hub);
        if latest.Some? && now - old(sessions)[latest.value].lastActive < 180_000_000
        then id == latest.value && sessions == old(sessions)
        else id == |old(sessions)| && sessions == old(sessions) + [Session(hub, None, now)]
      ensures sessions == Opened(old(sessions), hub, now)
      ensures id < |sessions| && Latest(sessions, hub) == Some(id)
    {
      var latest := Latest(sessions, hub);
      if latest.Some? && now - sessions[latest.value].lastActive < SESSION_IDLE_MICROSECONDS {
        return latest.value;
      }
      sessions := sessions + [Session(hub, None, now)];
      id := |sessions| - 1;
    }

    /** One commit: the rows of the turn and the activity time. Other sessions keep their rows. */
    method AppendMessages(session: nat, messages: seq<Message>, now: int)
      requires session < |sessions|
      modifies this
      ensures rows == old(rows) + EncodedAll(session, messages)
      ensures RowsOf(rows, session) == RowsOf(old(rows), session) + EncodedAll(session, messages)
      ensures forall s :: s != session ==> RowsOf(rows, s) == RowsOf(old(rows), s)
      ensures sessions == old(sessions)[session := old(sessions)[session].(lastActive := now)]
    {
      for i := 0 to |messages|
        invariant rows == old(rows) + EncodedAll(session, messages[..i])
        invariant sessions == old(sessions)
      {
        var m := messages[i];
        var toolCalls: Option<seq<StoredCall>>;
        if m.role == Tool {
          toolCalls := Some([StoredCall(m.toolCallId, "", "")]);
        } else if m.toolCalls.Some? && m.toolCalls.value != [] {
          toolCalls := Some(StoredCalls(m.toolCalls.value));
        } else {
          toolCalls := None;
        }
        EncodedSnoc(session, messages, i);
        rows := rows + [Row(session, m.role, m.content, toolCalls)];
      }
      assert messages[..|messages|] == messages;
      RowsOfAppend(old(rows), session, messages);
      sessions := sessions[session := sessions[session].(lastActive := now)];
    }

    method LoadContext(session: nat) returns (history: seq<Message>, summary: Option<string>)
      requires session < |sessions|
      ensures history == ContextOf(rows, session)
      ensures summary == sessions[session].summary
    {
      RecentIsLast(rows, session, CONTEXT_MESSAGE_LIMIT);
      var recent := RecentMessages(rows, session, CONTEXT_MESSAGE_LIMIT);
      history := DecodedAll(recent);
      summary := sessions[session].summary;
    }

    /** `target` is what is summarised; nothing is, and the provider is not called, up to the trigger count. */
    method MaybeRollSummary(session: nat, call: SummaryCall) returns (target: seq<Row>)
      requires session < |sessions|
      modifies this`sessions
      ensures var all := RowsOf(rows, session);
        if |all| <= 30 then target == [] else target + LastN(all, 20) == all
      ensures sessions == AfterSummary(old(sessions), rows, session, call)
    {
      var total := |RowsOf(rows, session)|;
      target := [];
      if total <= SUMMARY_TRIGGER_COUNT {
        return;
      }
      RecentIsLast(rows, session, total);
      var older := RecentMessages(rows, session, total);
      target := older[..|older| - CONTEXT_MESSAGE_LIMIT];

      var chunks, done := Collect(call.deltas);
      hide UntilDone, DoneSeen, TextsOf, Strip;
      assert sessions == sessions[session := sessions[session].(summary := sessions[session].summary)];
      if call.raises && !done {
        return;
      }
      var summary := Strip(Concat(chunks));
      if summary == "" {
        return;
      }
      var current := sessions[session].summary;
      var prefix := if current.Some? && current.value != "" then current.value + " / " else "";
      sessions := sessions[session := sessions[session].(summary := Some(Truncated(prefix + summary)))];
    }
  }

  /** Text pieces up to the first `Done`. */
  method Collect(ds: seq<ChatDelta>) returns (chunks: seq<string>, done: bool)
    ensures chunks == TextsOf(UntilDone(ds)) && done == DoneSeen(ds)
  {
    hide TextsOf;
    NoTexts();
    chunks, done := [], false;
    var n := 0;
    while n < |ds| && !done
      invariant n <= |ds|
      invariant !done ==> UntilDone(ds) == ds[..n] + UntilDone(ds[n..]) && DoneSeen(ds) == DoneSeen(ds[n..])
      invariant !done ==> chunks == TextsOf(ds[..n])
      invariant done ==> chunks == TextsOf(UntilDone(ds)) && DoneSeen(ds)
      decreases |ds| - n, !done
    {
      UntilDoneStep(ds, n);
      if ds[n].TextDelta? {
        chunks := chunks + [ds[n].text];
        n := n + 1;
      } else if ds[n].Done? {
        done := true;
      } else {
        n := n + 1;
      }
    }
    if !done {
      assert ds[..n] == ds && ds[n..] == [] && ds + [] == ds;
    }
  }

  lemma NoTexts()
    ensures TextsOf([]) == []
  {
  }

  lemma EncodedSnoc(session: nat, ms: seq<Message>, i: nat)
    requires i < |ms|
    ensures EncodedAll(session, ms[..i + 1]) == EncodedAll(session, ms[..i]) + [Encoded(session, ms[i])]
  {
  }

  lemma {:induction false} RowsOfAppend(rows: seq<Row>, session: nat, ms: seq<Message>)
    ensures RowsOf(rows + EncodedAll(session, ms), session) == RowsOf(rows, session) + EncodedAll(session, ms)
    ensures forall s :: s != session ==> RowsOf(rows + EncodedAll(session, ms), s) == RowsOf(rows, s)
    decreases |ms|
  {
    if ms == [] {
      assert rows + EncodedAll(session, ms) == rows;
    } else {
      hide EncodedAll, RowsOf;
      var n := |ms| - 1;
      var row := Encoded(session, ms[n]);
      RowsOfAppend(rows, session, ms[..n]);
      EncodedSnoc(session, ms, n);
      assert ms[..n + 1] == ms;
      Associative(rows, EncodedAll(session, ms[..n]), [row]);
      Associative(RowsOf(rows, session), EncodedAll(session, ms[..n]), [row]);
      RowsOfSnoc(rows + EncodedAll(session, ms[..n]), row);
    }
  }

  lemma RowsOfSnoc(rows: seq<Row>, row: Row)
    ensures RowsOf(rows + [row], row.session) == RowsOf(rows, row.session) + [row]
    ensures forall s :: s != row.session ==> RowsOf(rows + [row], s) == RowsOf(rows, s)
  {
    assert (rows + [row])[..|rows|] == rows;
    assert forall s :: RowsOf(rows, s) + [] == RowsOf(rows, s);
  }

  lemma UntilDoneStep(ds: seq<ChatDelta>, n: nat)
    requires n < |ds|
    ensures ds[n].Done? ==> UntilDone(ds[n..]) == [] && DoneSeen(ds[n..])
    ensures ds[n].Done? ==> ds[..n] + UntilDone(ds[n..]) == ds[..n]
    ensures !ds[n].Done? ==>
      && ds[..n] + UntilDone(ds[n..]) == ds[..n + 1] + UntilDone(ds[n + 1..])
      && DoneSeen(ds[n..]) == DoneSeen(ds[n + 1..])
      && TextsOf(ds[..n + 1]) == TextsOf(ds[..n]) + if ds[n].TextDelta? then [ds[n].text] else []
  {
    assert ds[n..][1..] == ds[n + 1..] && ds[..n + 1][..n] == ds[..n];
    assert ds[..n + 1] == ds[..n] + [ds[n]];
  }

  /** The deltas before the first `Done`. */
  function UntilDone(ds: seq<ChatDelta>): seq<ChatDelta>
  {
    if ds == [] || ds[0].Done? then [] else [ds[0]] + UntilDone(ds[1..])
  }

  predicate DoneSeen(ds: seq<ChatDelta>)
  {
    ds != [] && (ds[0].Done? || DoneSeen(ds[1..]))
  }

  /** What counts of a summary call is what comes before its first `Done`. */
  lemma {:induction false} UntilDoneIs(ds: seq<ChatDelta>)
    ensures UntilDone(ds) <= ds && forall i :: 0 <= i < |UntilDone(ds)| ==> !UntilDone(ds)[i].Done?
    ensures if DoneSeen(ds) then |UntilDone(ds)| < |ds| && ds[|UntilDone(ds)|].Done? else UntilDone(ds) == ds
  {
    if ds != [] && !ds[0].Done? {
      UntilDoneIs(ds[1..]);
    }
  }

  // ---------- the window ----------

  function Flattened<T>(parts: seq<seq<T>>): seq<T>
  {
    if parts == [] then [] else parts[0] + Flattened(parts[1..])
  }

  /** What the pipeline stores for one answered turn: the user's words and the orchestrator's messages. */
  ghost predicate StoredTurn(ms: seq<Message>)
  {
    exists w: World, phrases: Phrases, events: seq<OrchEvent>, end: TurnEnd, text: string ::
      Answered(w, phrases, events, end, text, ms)
  }

  ghost predicate Answered(w: World, phrases: Phrases, events: seq<OrchEvent>, end: TurnEnd, text: string,
                           ms: seq<Message>)
  {
    && IsTurn(w, phrases, events, end) && !end.ProviderFailed?
    && events != [] && events[|events| - 1].OrchDone?
    && ms == [UserMessage(text)] + events[|events| - 1].newMessages
  }

  predicate AllStorable(ms: seq<Message>)
  {
    forall i :: 0 <= i < |ms| ==> Storable(ms[i])
  }

  lemma StoredTurnIsPaired(ms: seq<Message>)
    requires StoredTurn(ms)
    ensures Paired(ms) && AllStorable(ms)
  {
    hide IsTurn, Log, Paired, IsRounds;
    var w: World, phrases: Phrases, events: seq<OrchEvent>, end: TurnEnd, text: string :|
      Answered(w, phrases, events, end, text, ms);
    DoneIsWellFormed(w, phrases, events, end);
    var added := events[|events| - 1].newMessages;
    UserIsPaired(text);
    PairedAppend([UserMessage(text)], added);
    if !end.TimedOut? {
      TurnIsStorable(w, phrases, events, end);
    }
  }

  lemma UserIsPaired(text: string)
    ensures Paired([UserMessage(text)])
  {
    assert Paired([UserMessage(text)][1..]);
  }

  lemma TurnIsStorable(w: World, phrases: Phrases, events: seq<OrchEvent>, end: TurnEnd)
    requires IsTurn(w, phrases, events, end) && (end.Final? || end.LoopExceeded?)
    ensures events != [] && events[|events| - 1].OrchDone? && AllStorable(events[|events| - 1].newMessages)
  {
    hide Log, Events, TextsOf, Texts, Continues, TimesOut, FinishReason;
    LogIsStorable(w, if end.LoopExceeded? then MAX_TOOL_ITERATIONS else end.rounds);
  }

  lemma {:induction false} LogIsStorable(w: World, k: nat)
    requires forall i :: 0 <= i < k ==> Continues(w.provider(i))
    ensures AllStorable(Log(w, k))
  {
    hide Continues, TextsOf, CallsOf, Log;
    NoRounds(w);
    if k > 0 {
      LogIsStorable(w, k - 1);
      LogStep(w, k - 1);
      ContinuesAsks(w.provider(k - 1));
      var round := RoundLog(w, k - 1);
      forall i | 0 <= i < |round| ensures Storable(round[i]) {
        var calls := CallsOf(w.provider(k - 1).deltas);
        if i > 0 {
          assert round[i] == ResultMessage(w.tools(k - 1, i - 1).content, calls[i - 1].id);
        } else {
          assert round[i] == CallMessage(Concat(TextsOf(w.provider(k - 1).deltas)), calls);
        }
      }
    }
  }

  /**
   * After any sequence of answered turns the loaded context is the last twenty messages of the
   * conversation; tool results severed from their request can only be at its front.
   */
  lemma LoadedWindow(rows: seq<Row>, session: nat, turns: seq<seq<Message>>) returns (orphans: nat)
    requires forall i :: 0 <= i < |turns| ==> StoredTurn(turns[i])
    requires RowsOf(rows, session) == EncodedAll(session, Flattened(turns))
    ensures var window := DecodedAll(LastN(RowsOf(rows, session), CONTEXT_MESSAGE_LIMIT));
      && window == LastN(Flattened(turns), CONTEXT_MESSAGE_LIMIT)
      && Windowed(window, orphans)
  {
    hide StoredTurn, RowsOf, Flattened, Windowed, Paired, Storable;
    FlattenedIsPaired(turns);
    var all := Flattened(turns);
    forall i | 0 <= i < |all| ensures Decoded(Encoded(session, all[i])) == all[i] {
      RoundTrip(session, all[i]);
    }
    var from := |all| - |LastN(all, CONTEXT_MESSAGE_LIMIT)|;
    assert LastN(all, CONTEXT_MESSAGE_LIMIT) == all[from..];
    WindowDecodes(session, all, CONTEXT_MESSAGE_LIMIT);
    orphans := PairedSuffix(all, from);
  }

  lemma WindowDecodes(session: nat, all: seq<Message>, n: nat)
    requires forall i :: 0 <= i < |all| ==> Decoded(Encoded(session, all[i])) == all[i]
    ensures DecodedAll(LastN(EncodedAll(session, all), n)) == LastN(all, n)
  {
    hide Decoded, Encoded;
    var window := LastN(all, n);
    var rows := LastN(EncodedAll(session, all), n);
    forall i | 0 <= i < |window| ensures Decoded(rows[i]) == window[i] {
      assert rows[i] == Encoded(session, all[|all| - |window| + i]);
    }
  }

  lemma {:induction false} FlattenedIsPaired(turns: seq<seq<Message>>)
    requires forall i :: 0 <= i < |turns| ==> StoredTurn(turns[i])
    ensures Paired(Flattened(turns)) && AllStorable(Flattened(turns))
  {
    if turns != [] {
      hide StoredTurn;
      StoredTurnIsPaired(turns[0]);
      FlattenedIsPaired(turns[1..]);
      PairedAppend(turns[0], Flattened(turns[1..]));
    }
  }

  /** One commit of messages to a session. */
  datatype Append = Append(session: nat, messages: seq<Message>)

  /** The rows after a run of commits, to whatever sessions. */
  function RowsAfter(log: seq<Append>): seq<Row>
  {
    if log == [] then []
    else
      var n := |log| - 1;
      RowsAfter(log[..n]) + EncodedAll(log[n].session, log[n].messages)
  }

  /** What was committed to one session, commit by commit. */
  function TurnsOf(log: seq<Append>, session: nat): seq<seq<Message>>
  {
    if log == [] then []
    else
      var n := |log| - 1;
      TurnsOf(log[..n], session) + if log[n].session == session then [log[n].messages] else []
  }

  lemma RowsAfterSnoc(log: seq<Append>, a: Append)
    ensures RowsAfter(log + [a]) == RowsAfter(log) + EncodedAll(a.session, a.messages)
  {
    hide EncodedAll;
    assert (log + [a])[..|log|] == log;
  }

  lemma TurnsOfLog(log: seq<Append>, session: nat)
    requires forall i :: 0 <= i < |log| ==> StoredTurn(log[i].messages)
    ensures forall i :: 0 <= i < |TurnsOf(log, session)| ==> StoredTurn(TurnsOf(log, session)[i])
  {
    hide StoredTurn;
    if log != [] {
      TurnsOfLog(log[..|log| - 1], session);
    }
  }

  /** The rows of a session are its own commits, put end to end, whatever was stored in between elsewhere. */
  lemma {:induction false} RowsOfLog(log: seq<Append>, session: nat)
    ensures RowsOf(RowsAfter(log), session) == EncodedAll(session, Flattened(TurnsOf(log, session)))
  {
    if log != [] {
      hide RowsOf, EncodedAll, Flattened;
      var n := |log| - 1;
      var turns := TurnsOf(log[..n], session);
      RowsOfLog(log[..n], session);
      RowsOfAppend(RowsAfter(log[..n]), log[n].session, log[n].messages);
      if log[n].session == session {
        FlattenedSnoc(turns, log[n].messages);
        EncodedAppend(session, Flattened(turns), log[n].messages);
      } else {
        assert turns + [] == turns;
      }
    }
  }

  lemma {:induction false} FlattenedSnoc<T>(parts: seq<seq<T>>, last: seq<T>)
    ensures Flattened(parts + [last]) == Flattened(parts) + last
  {
    if parts == [] {
      assert parts + [last] == [last] && [last][1..] == [];
    } else {
      assert (parts + [last])[1..] == parts[1..] + [last];
      FlattenedSnoc(parts[1..], last);
    }
  }

  lemma EncodedAppend(session: nat, a: seq<Message>, b: seq<Message>)
    ensures EncodedAll(session, a + b) == EncodedAll(session, a) + EncodedAll(session, b)
  {
    hide Encoded;
  }

  // ---------- from one turn to the next ----------

  lemma Storables(ms: seq<Message>, session: nat)
    requires AllStorable(ms)
    ensures DecodedAll(EncodedAll(session, ms)) == ms
  {
    hide Storable, Decoded, Encoded;
    forall i | 0 <= i < |ms| ensures Decoded(Encoded(session, ms[i])) == ms[i] {
      RoundTrip(session, ms[i]);
    }
  }

  /** A stored turn goes to the end of its session's context, and pushes out what is more than twenty messages back. */
  lemma ContextGrows(rows: seq<Row>, session: nat, ms: seq<Message>)
    requires AllStorable(ms)
    ensures ContextOf(rows + EncodedAll(session, ms), session) == LastN(ContextOf(rows, session) + ms, 20)
    ensures forall s :: s != session ==> ContextOf(rows + EncodedAll(session, ms), s) == ContextOf(rows, s)
  {
    hide RowsOf, EncodedAll, Storable, Decoded;
    RowsOfAppend(rows, session, ms);
    Storables(ms, session);
    var before, added := RowsOf(rows, session), EncodedAll(session, ms);
    DecodedParts(before, added);
  }

  lemma DecodedParts(before: seq<Row>, added: seq<Row>)
    ensures DecodedAll(LastN(before + added, 20)) == LastN(DecodedAll(LastN(before, 20)) + DecodedAll(added), 20)
  {
    hide Decoded;
  }

  /** No row belongs to a session that has not been opened. */
  predicate Linked(sessions: seq<Session>, rows: seq<Row>)
  {
    forall i :: 0 <= i < |rows| ==> rows[i].session < |sessions|
  }

  lemma {:induction false} NewSessionIsEmpty(rows: seq<Row>, session: nat)
    requires forall i :: 0 <= i < |rows| ==> rows[i].session < session
    ensures RowsOf(rows, session) == []
  {
    if rows != [] {
      NewSessionIsEmpty(rows[..|rows| - 1], session);
    }
  }

  /**
   * What the hub's next lookup finds after a turn was stored at time `now`: within three minutes the session the
   * turn went into, afterwards a new one.
   */
  lemma NextSession(before: seq<Session>, after: seq<Session>, rows: seq<Row>, session: nat, hub: nat, now: int,
                    call: Option<SummaryCall>, next: int)
    requires TurnStored(before, after, rows, session, hub, now, call)
    ensures Latest(after, hub) == Some(session)
    ensures Latest(Opened(after, hub, next), hub) == Some(if next - now < 180_000_000 then session else |after|)
  {
    hide RowsOf, Rolled, UntilDone, DoneSeen, TextsOf, Concat;
  }

  lemma LookupElsewhere(sessions: seq<Session>, other: nat, now: int, hub: nat, own: nat)
    requires hub != other && Latest(sessions, hub) == Some(own)
    ensures var after := Opened(sessions, other, now);
      |sessions| <= |after| && after[own] == sessions[own] && Latest(after, hub) == Some(own)
  {
  }

  lemma TurnElsewhere(before: seq<Session>, after: seq<Session>, rows: seq<Row>, session: nat, other: nat, now: int,
                      call: Option<SummaryCall>, hub: nat, own: nat)
    requires TurnStored(before, after, rows, session, other, now, call)
    requires hub != other && Latest(before, hub) == Some(own)
    ensures session != own && own < |after| && after[own] == before[own] && Latest(after, hub) == Some(own)
  {
    hide RowsOf, Rolled, UntilDone, DoneSeen, TextsOf, Concat, Latest;
    assert session < |before| ==> before[session].hub == other;
    assert forall i :: own < i < |after| ==> after[i].hub != hub;
    assert Latest(after, hub).Some?;
  }

  // ---------- the rolling summary ----------

  function Truncated(s: string): string
  {
    if |s| <= SUMMARY_LIMIT then s else s[..SUMMARY_LIMIT]
  }

  /** The summary after one successful summary call that answered `addition`. */
  function Rolled(summary: Option<string>, addition: string): Option<string>
  {
    var stripped := Strip(addition);
    if stripped == "" then summary
    else
      var prefix := if summary.Some? && summary.value != "" then summary.value + " / " else "";
      Some(Truncated(prefix + stripped))
  }

  function RolledAll(additions: seq<string>): Option<string>
  {
    if additions == [] then None else Rolled(RolledAll(additions[..|additions| - 1]), additions[|additions| - 1])
  }

  /** Answers that are not blank. */
  function Successful(additions: seq<string>): nat
  {
    if additions == [] then 0
    else
      Successful(additions[..|additions| - 1]) + if Strip(additions[|additions| - 1]) != "" then 1 else 0
  }

  /** One more non-blank roll keeps what was there, grows it strictly while there is room, and never overflows. */
  lemma RollGrows(summary: Option<string>, addition: string)
    requires |OrEmpty(summary)| <= SUMMARY_LIMIT
    ensures var before, after := OrEmpty(summary), OrEmpty(Rolled(summary, addition));
      && before <= after
      && |after| <= SUMMARY_LIMIT
      && (Strip(addition) != "" ==> |after| > |before| || |before| == SUMMARY_LIMIT)
      && (|before| == SUMMARY_LIMIT ==> Rolled(summary, addition) == summary)
  {
    hide Strip, Rolled;
    if Strip(addition) != "" {
      RolledLength(summary, addition);
    } else {
      BlankChangesNothing(summary, addition);
    }
  }

  lemma BlankChangesNothing(summary: Option<string>, addition: string)
    requires Strip(addition) == ""
    ensures Rolled(summary, addition) == summary
  {
  }

  lemma RolledLength(summary: Option<string>, addition: string)
    requires |OrEmpty(summary)| <= SUMMARY_LIMIT && Strip(addition) != ""
    ensures var before, after := OrEmpty(summary), OrEmpty(Rolled(summary, addition));
      var room := |before| + |Strip(addition)| + if before == "" then 0 else 3;
      && before <= after <= before + (if before == "" then "" else " / ") + Strip(addition)
      && |after| == (if room <= 2000 then room else 2000)
      && (|before| == SUMMARY_LIMIT ==> Rolled(summary, addition) == summary)
  {
    hide Strip;
    var before, stripped := OrEmpty(summary), Strip(addition);
    var added := if before == "" then stripped else " / " + stripped;
    assert OrEmpty(Rolled(summary, addition)) == Truncated(before + added) by {
      Associative(before, " / ", stripped);
      assert "" + stripped == stripped;
    }
    assert |before| == SUMMARY_LIMIT ==> (before + added)[..SUMMARY_LIMIT] == before;
  }

  /** `k` successful rolls have filled at least `4k - 3` characters, so 501 of them fill the summary for good. */
  lemma {:induction false} SummaryFills(additions: seq<string>)
    ensures var s, k := OrEmpty(RolledAll(additions)), Successful(additions);
      && |s| <= SUMMARY_LIMIT
      && (k > 0 ==> |s| >= if 4 * k - 3 < SUMMARY_LIMIT then 4 * k - 3 else SUMMARY_LIMIT)
      && (k >= 501 ==> |s| == SUMMARY_LIMIT)
  {
    if additions != [] {
      hide Strip;
      var n := |additions| - 1;
      SummaryFills(additions[..n]);
      RollGrows(RolledAll(additions[..n]), additions[n]);
    }
  }

  /** The bound is tight: with one-character answers, 500 rolls leave room for the 501st. */
  lemma {:induction false} SummaryFillsNoSooner(additions: seq<string>)
    requires forall i :: 0 <= i < |additions| ==> |Strip(additions[i])| == 1
    requires |additions| <= 500
    ensures |OrEmpty(RolledAll(additions))| == if additions == [] then 0 else 4 * |additions| - 3
  {
    if additions != [] {
      hide Strip, Rolled;
      var n := |additions| - 1;
      SummaryFillsNoSooner(additions[..n]);
      RolledLength(RolledAll(additions[..n]), additions[n]);
    }
  }

  /** Earlier summaries are prefixes of later ones, and a full summary never learns anything new. */
  lemma {:induction false} SummariesNest(additions: seq<string>, more: seq<string>)
    ensures var before, after := OrEmpty(RolledAll(additions)), OrEmpty(RolledAll(additions + more));
      before <= after && (|before| == SUMMARY_LIMIT ==> after == before)
    decreases |more|
  {
    hide Strip;
    if more == [] {
      assert additions + more == additions;
    } else {
      var n := |more| - 1;
      SummariesNest(additions, more[..n]);
      assert (additions + more)[..|additions + more| - 1] == additions + more[..n];
      SummaryFills(additions + more[..n]);
      RollGrows(RolledAll(additions + more[..n]), more[n]);
    }
  }
}
