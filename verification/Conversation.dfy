/** The components joined: pipelines that store turns, and the sessions they are stored in. */
module Conversation {
  import opened Text
  import opened Llm
  import opened Orchestrator
  import opened Frames
  import opened Pipeline
  import Anthropic
  import Chat
  import Sentence

  // ---------- a reply nobody could hear is spoken again ----------

  lemma {:induction false} SilentSounds(p: VoicePipeline, n: nat)
    ensures p.Sounds(n) == [] <==> forall i: nat :: i < n ==> p.speech(i).chunks == []
  {
    if n > 0 {
      SilentSounds(p, n - 1);
    }
  }

  /** The whole text is spoken again exactly when no sentence of it gave any audio, unless the hub barges in. */
  lemma SpokenAgain(p: VoicePipeline, events: seq<OrchEvent>, done: OrchEvent, again: bool, streamed: nat, at: nat)
    requires p.Replied(events, done, again, streamed, at) && !p.BargedBefore(at)
    ensures p.spoken == Script(Streamed(events)) + if again then [done.text] else []
    ensures again <==>
      done.text != "" && forall i: nat :: i < |Script(Streamed(events))| ==> p.speech(i).chunks == []
    ensures Responses(p.frames) == [done.text]
  {
    hide Streamed, Script, Shown, Visible, Responses, Audio;
    var n := |Script(Streamed(events))|;
    SilentSounds(p, n);
    if again {
      p.NextSounds(n);
    }
  }

  lemma HiTurn(phrases: Phrases, events: seq<OrchEvent>, end: TurnEnd)
    requires IsTurn(Hi(), phrases, events, end)
    ensures end.Final? && events == [OrchText("Hi."), OrchDone("Hi.", "stop", [Reply("Hi.")])]
  {
    var ds := [TextDelta("Hi."), Done("stop")];
    assert ds[..1] == [TextDelta("Hi.")] && ds[..1][..0] == [];
    assert TextsOf(ds[..1]) == ["Hi."] && TextsOf(ds) == ["Hi."];
    assert FinishReason(ds) == "stop";
    assert !Continues(Hi().provider(0));
    hide CallsOf, Sorted, Continues, FinishReason, TextsOf;
    NoRounds(Hi());
    TextsStep(Hi(), 0);
    assert Texts(Hi(), 1) == ["Hi."];
    assert Concat(["Hi."]) == "Hi.";
    var k := if end.LoopExceeded? then MAX_TOOL_ITERATIONS else end.rounds;
    NoRoundAtAll(Hi(), k);
    assert [] + [OrchText("Hi.")] == [OrchText("Hi.")] && [] + [Reply("Hi.")] == [Reply("Hi.")];
    assert TextEvents(["Hi."]) == [OrchText("Hi.")];
  }

  lemma NoRoundAtAll(w: World, k: nat)
    requires !Continues(w.provider(0)) && forall i :: 0 <= i < k ==> Continues(w.provider(i))
    ensures k == 0
  {
  }

  /** A model that says "Hi." and stops. */
  function Hi(): World
  {
    World(i => Stream(true, [TextDelta("Hi."), Done("stop")], false), (i, j) => ToolResult(true, ""))
  }

  lemma HiScript()
    ensures Script(["Hi."]) == ["Hi."]
  {
    Sentence.HiSegments();
    assert ["Hi."][..0] == [] && "" + "Hi." == "Hi.";
    Sentence.NothingFed();
    assert Sentence.Fed(["Hi."]) == ([] + Sentence.Sentences("Hi."), Sentence.Rest("Hi."));
    Sentence.NoRemainder();
    assert ["Hi."] + [] == ["Hi."];
  }

  lemma NothingHappens(p: VoicePipeline, n: nat)
    requires forall i :: p.world(i) == Await(Resumes, false)
    ensures !p.BargedBefore(n) && !p.CancelledBefore(n)
  {
  }

  /** A turn in which nothing goes wrong but the syntheses of "Hi." are empty: it is synthesised twice. */
  method SpeaksTwice(phrases: Phrases) returns (p: VoicePipeline)
    ensures p.spoken == ["Hi.", "Hi."] && Responses(p.frames) == ["Hi."]
  {
    hide IsTurn, Streamed, Script, Shown, Visible, Audio, Responses, StageOf;
    hide VoicePipeline.Replied, VoicePipeline.Captioned, VoicePipeline.Tracked, VoicePipeline.BargedBefore,
      VoicePipeline.CancelledBefore, VoicePipeline.Shows, VoicePipeline.AskedWith;
    p := new VoicePipeline(i => Await(Resumes, false), site => false, i => Speech([], true));
    var store := new Chat.ChatStore();
    var u := Utterance(Query("Hello"), Hearing("", false), 0, 0, 0);
    var b := Brain(Hi(), phrases, summary => "", Chat.SummaryCall([], false));
    ghost var ending, left, t;
    var closed, reply, saved, session;
    closed, ending, left, reply, saved, session, t := p.Run(false, store, u, "", b);
    NothingHappens(p, left);
    NothingHappens(p, t.at);
    HiTurn(phrases, t.events, t.end);
    LastEvent(p, t, reply);
    SpokenAgain(p, t.events, reply.value, t.again, t.streamed, t.at);
    HiStreamed();
    HiScript();
  }

  lemma LastEvent(p: VoicePipeline, t: Trace, reply: Option<OrchEvent>)
    requires reply.Some? && p.Replied(t.events, reply.value, t.again, t.streamed, t.at)
    ensures t.events != [] && t.events[|t.events| - 1] == reply.value
  {
  }

  lemma HiStreamed()
    ensures Streamed([OrchText("Hi."), OrchDone("Hi.", "stop", [Reply("Hi.")])]) == ["Hi."]
  {
    var es := [OrchText("Hi."), OrchDone("Hi.", "stop", [Reply("Hi.")])];
    assert es[..1] == [OrchText("Hi.")] && es[..1][..0] == [];
    assert Streamed(es[..1]) == ["Hi."];
  }

  // ---------- which runs fail ----------

  /** Typed, or heard with confidence. */
  predicate Understood(u: Utterance)
  {
    u.input.Query? || (u.hearing.text != "" && u.hearing.confident)
  }

  /** Whether the await is on the way of this utterance at all. */
  predicate Concerns(site: Site, u: Utterance)
  {
    if site in {Recogniser, Transcription} then u.input.Voice? else Understood(u)
  }

  /**
   * A run that is neither cancelled nor met by a barge-in ends in an exception exactly when one of the awaits on its
   * way raises, or the provider does. Otherwise what was understood has been answered and stored, and anything else
   * has been met by the one request to repeat.
   */
  lemma EveryFailureCounts(p: VoicePipeline, ending: Flow, left: nat, reply: Option<OrchEvent>,
                           saved: Option<seq<Message>>, u: Utterance, repeatPlease: string, b: Brain, t: Trace)
    requires p.Ends(ending, left, reply, saved, u, repeatPlease, b, t)
    requires ending != Cancelled && !p.BargedBefore(left)
    ensures ending == Raised <==>
      (exists site :: Concerns(site, u) && p.fails(site)) || (Understood(u) && t.asked != [] && t.end.ProviderFailed?)
    ensures ending == Go && Understood(u) ==> reply.Some? && saved.Some?
    ensures ending == Go && !Understood(u) ==> Responses(p.frames) == [repeatPlease] && p.spoken == [repeatPlease]
  {
    hide IsTurn, Shown, Streamed, Script, Visible, Responses, Audio, VoicePipeline.BargedBefore;
    if reply.Some? && t.end.ProviderFailed? {
      FailedTurnHasNoDone(b.world, b.phrases, t.events, t.end);
    }
    WhereItFails(p, u);
  }

  lemma WhereItFails(p: VoicePipeline, u: Utterance)
    ensures (exists site :: Concerns(site, u) && p.fails(site)) <==>
      p.RecognitionFails(u.input) || (Understood(u) && (p.ContextFails() || p.StoringFails()))
  {
    forall site | p.fails(site) && site !in {Recogniser, Transcription}
      ensures p.ContextFails() || p.StoringFails()
    {
      assert !site.Recogniser? && !site.Transcription?;
    }
    assert forall site :: site in {Session, Context, DeviceBlock, ScenarioNames, SessionAgain, Commit, Summary} ==>
      (Concerns(site, u) <==> Understood(u));
    assert forall site :: site in {Recogniser, Transcription} ==> (Concerns(site, u) <==> u.input.Voice?);
  }

  /**
   * What the model is asked first, and what of the user is stored: the words as typed, or as heard, after the prompt
   * and the context.
   */
  lemma TheUsersWords(p: VoicePipeline, ending: Flow, left: nat, reply: Option<OrchEvent>,
                      saved: Option<seq<Message>>, u: Utterance, repeatPlease: string, b: Brain, t: Trace,
                      sessions: seq<Chat.Session>, rows: seq<Chat.Row>)
    requires p.Ends(ending, left, reply, saved, u, repeatPlease, b, t)
    requires t.asked != [] ==> p.AskedWith(u, b, t, sessions, rows)
    ensures var words := Message(User, if u.input.Query? then u.input.text else u.hearing.text, None, None);
      && (t.asked != [] ==> exists prompt: string ::
           t.asked[0] == [Message(System, prompt, None, None)] + t.context + [words])
      && (saved.Some? ==> saved.value != [] && saved.value[0] == words)
    ensures ending == Go && reply.Some? ==>
      (if u.input.Query? then [Thinking] else [SttFinal(u.hearing.text), Thinking]) <= p.frames
  {
    hide IsTurn, VoicePipeline.Replied, VoicePipeline.HeardAll, Chat.ContextOf;
    if t.asked != [] {
      NoRounds(b.world);
      var prompt := b.prompt(Chat.SummaryOf(sessions, t.loaded));
      var opening := [Message(System, prompt, None, None)] + (t.context + [UserMessage(u.Words())]);
      assert opening + [] == opening;
      assert t.asked[0] == opening;
    }
  }

  // ---------- what is stored, and what the next turn reads ----------

  /** Whatever a pipeline commits is a turn of the kind the window theorem is about. */
  lemma SavedIsStoredTurn(p: VoicePipeline, b: Brain, t: Trace, done: OrchEvent, text: string)
    requires IsTurn(b.world, b.phrases, t.events, t.end)
    requires p.Replied(t.events, done, t.again, t.streamed, t.at)
    ensures Chat.StoredTurn([UserMessage(text)] + done.newMessages)
  {
    hide IsTurn, Shown, Streamed, Script, Visible, Responses, Audio;
    if t.end.ProviderFailed? {
      FailedTurnHasNoDone(b.world, b.phrases, t.events, t.end);
    }
    assert Chat.Answered(b.world, b.phrases, t.events, t.end, text, [UserMessage(text)] + done.newMessages);
  }

  ghost predicate AllTurns(log: seq<Chat.Append>)
  {
    forall i :: 0 <= i < |log| ==> Chat.StoredTurn(log[i].messages)
  }

  /**
   * One utterance served. If the rows were those of a list of turns before, they are those of that list with this
   * turn added, or unchanged when nothing was committed. Whenever the model was asked, it was asked with the context
   * that list gives the loaded session.
   */
  method ServeTurn(store: Chat.ChatStore, p: VoicePipeline, startCancelled: bool, u: Utterance, repeatPlease: string,
                   b: Brain, ghost log: seq<Chat.Append>)
    returns (reply: Option<OrchEvent>, saved: Option<seq<Message>>, session: nat, ghost newLog: seq<Chat.Append>,
             ghost ending: Flow, ghost t: Trace)
    requires store.rows == Chat.RowsAfter(log) && AllTurns(log) && p.Unstarted()
    modifies store, p
    ensures store.rows == Chat.RowsAfter(newLog) && AllTurns(newLog)
    ensures newLog == if saved.Some? then log + [Chat.Append(session, saved.value)] else log
    ensures saved.Some? ==> reply.Some? && t.asked != [] && Chat.StoredTurn(saved.value)
    ensures
      VoicePipeline.StoreAfter(u, b, t, reply.Some?, ending, saved, session, old(store.sessions), old(store.rows),
                               store.sessions, store.rows)
  {
    hide Chat.StoredTurn, Chat.RowsAfter, Chat.EncodedAll, IsTurn, Shown, Streamed, Script, Visible, Responses, Audio;
    hide VoicePipeline.Replied, VoicePipeline.Tracked, VoicePipeline.Shows, VoicePipeline.AskedWith, Chat.TurnStored,
      Chat.Opened;
    newLog := log;
    ghost var left;
    var closed;
    closed, ending, left, reply, saved, session, t := p.Run(startCancelled, store, u, repeatPlease, b);
    if saved.Some? {
      SavedIsStoredTurn(p, b, t, reply.value, u.Words());
      Chat.RowsAfterSnoc(log, Chat.Append(session, saved.value));
      newLog := log + [Chat.Append(session, saved.value)];
    } else {
      assert store.rows == old(store.rows) + [];
    }
  }

  /** After any history of turns, over any sessions, the context of a session is a window of its own turns. */
  lemma ContextAfterTurns(log: seq<Chat.Append>, session: nat) returns (orphans: nat)
    requires AllTurns(log)
    ensures var context := Chat.ContextOf(Chat.RowsAfter(log), session);
      && context == LastN(Chat.Flattened(Chat.TurnsOf(log, session)), Chat.CONTEXT_MESSAGE_LIMIT)
      && Windowed(context, orphans)
  {
    Chat.RowsOfLog(log, session);
    Chat.TurnsOfLog(log, session);
    orphans := Chat.LoadedWindow(Chat.RowsAfter(log), session, Chat.TurnsOf(log, session));
  }

  // ---------- from one utterance to the next ----------

  /**
   * What a hub's next turn is asked with, after one of its turns was saved and nothing else but turns of other hubs
   * came in between (`HubsAreSeparate`). More than three minutes later it is nothing. Otherwise it is the last twenty
   * of what the saved turn was asked with and of that turn; or of that turn alone, when it took so long that it was
   * stored in a new session.
   */
  lemma NextTurnRemembers(u: Utterance, b: Brain, t: Trace, ending: Flow, saved: seq<Message>, session: nat,
                          sessions: seq<Chat.Session>, rows: seq<Chat.Row>,
                          middle: seq<Chat.Session>, middleRows: seq<Chat.Row>, v: Utterance, c: Brain, t2: Trace)
    requires VoicePipeline.StoreAfter(u, b, t, true, ending, Some(saved), session, sessions, rows, middle, middleRows)
    requires t.asked != [] && Chat.AllStorable(saved) && Chat.Linked(sessions, rows)
    requires u.hub == v.hub && t2.asked != []
    requires VoicePipeline.AskedWith(v, c, t2, middle, middleRows)
    requires Chat.Latest(Chat.Opened(middle, v.hub, v.before), v.hub) == Some(t2.loaded)
    ensures var found := Chat.Opened(sessions, u.hub, u.before);
      && t.loaded < |found|
      && t2.context ==
         if v.before - u.after >= 180_000_000 then []
         else if u.after - found[t.loaded].lastActive >= 180_000_000 then LastN(saved, 20)
         else LastN(t.context + saved, 20)
  {
    hide Chat.RowsOf, Chat.EncodedAll, Chat.AllStorable, Chat.TurnStored, Asked, Chat.ContextOf;
    var found := Chat.Opened(sessions, u.hub, u.before);
    var call := if ending == Go then Some(b.summary) else None;
    Chat.NextSession(found, middle, middleRows, session, u.hub, u.after, call, v.before);
    Chat.ContextGrows(rows, session, saved);
    WhereStored(found, middle, middleRows, session, u.hub, u.after, call, t.loaded);
    if v.before - u.after >= 180_000_000 {
      EmptyContext(rows + Chat.EncodedAll(session, saved), session, saved, rows, |middle|);
    } else if session == |found| {
      NoContext(rows, session);
      assert [] + saved == saved;
    }
  }

  lemma WhereStored(found: seq<Chat.Session>, middle: seq<Chat.Session>, rows: seq<Chat.Row>, session: nat, hub: nat,
                    now: int, call: Option<Chat.SummaryCall>, loaded: nat)
    requires Chat.TurnStored(found, middle, rows, session, hub, now, call) && Chat.Latest(found, hub) == Some(loaded)
    ensures session == if now - found[loaded].lastActive < 180_000_000 then loaded else |found|
    ensures session < |middle| && |found| <= |middle|
  {
    hide Chat.RowsOf, Chat.Rolled, Chat.UntilDone, Chat.DoneSeen, TextsOf, Concat;
  }

  lemma NoContext(rows: seq<Chat.Row>, session: nat)
    requires forall i :: 0 <= i < |rows| ==> rows[i].session < session
    ensures Chat.ContextOf(rows, session) == []
  {
    Chat.NewSessionIsEmpty(rows, session);
  }

  lemma EmptyContext(after: seq<Chat.Row>, session: nat, saved: seq<Message>, rows: seq<Chat.Row>, next: nat)
    requires after == rows + Chat.EncodedAll(session, saved) && session < next
    requires forall i :: 0 <= i < |rows| ==> rows[i].session < next
    ensures Chat.ContextOf(after, next) == []
  {
    NoContext(after, next);
  }

  /** Two utterances of one hub, one after the other. */
  method ServeTwice(store: Chat.ChatStore, p: VoicePipeline, q: VoicePipeline, u: Utterance, v: Utterance,
                    repeatPlease: string, b: Brain, c: Brain, ghost log: seq<Chat.Append>)
    returns (saved: Option<seq<Message>>, ghost t: Trace, ghost t2: Trace)
    requires store.rows == Chat.RowsAfter(log) && AllTurns(log) && Chat.Linked(store.sessions, store.rows)
    requires p != q && p.Unstarted() && q.Unstarted() && u.hub == v.hub
    modifies store, p, q
    ensures saved.Some? && t2.asked != [] ==>
      var found := Chat.Opened(old(store.sessions), u.hub, u.before);
      && t.loaded < |found|
      && t2.context ==
         if v.before - u.after >= 180_000_000 then []
         else if u.after - found[t.loaded].lastActive >= 180_000_000 then LastN(saved.value, 20)
         else LastN(t.context + saved.value, 20)
  {
    hide Chat.StoredTurn, Chat.RowsAfter, Chat.EncodedAll, Chat.TurnStored, Chat.Opened, Chat.Linked, Chat.AllStorable;
    hide VoicePipeline.Tracked, VoicePipeline.AskedWith;
    var reply, session, reply2, saved2, session2;
    ghost var newLog, ending, newLog2, ending2;
    ghost var sessions, rows := store.sessions, store.rows;
    reply, saved, session, newLog, ending, t := ServeTurn(store, p, false, u, repeatPlease, b, log);
    ghost var middle, middleRows := store.sessions, store.rows;
    reply2, saved2, session2, newLog2, ending2, t2 := ServeTurn(store, q, false, v, repeatPlease, c, newLog);
    if saved.Some? && t2.asked != [] {
      Chat.StoredTurnIsPaired(saved.value);
      NextTurnRemembers(u, b, t, ending, saved.value, session, sessions, rows, middle, middleRows, v, c, t2);
    }
  }

  /**
   * A turn of one hub leaves another hub's latest session, its rows and its summary alone.
   */
  lemma HubsAreSeparate(u: Utterance, b: Brain, t: Trace, answered: bool, ending: Flow, saved: Option<seq<Message>>,
                        session: nat, sessions: seq<Chat.Session>, rows: seq<Chat.Row>,
                        newSessions: seq<Chat.Session>, newRows: seq<Chat.Row>, hub: nat, own: nat)
    requires VoicePipeline.StoreAfter(u, b, t, answered, ending, saved, session, sessions, rows, newSessions, newRows)
    requires hub != u.hub && Chat.Latest(sessions, hub) == Some(own)
    ensures Chat.Latest(newSessions, hub) == Some(own) && newSessions[own] == sessions[own]
    ensures Chat.RowsOf(newRows, own) == Chat.RowsOf(rows, own)
  {
    hide Chat.RowsOf, Chat.EncodedAll, Chat.TurnStored, Chat.Opened, VoicePipeline.AskedWith;
    assert rows + [] == rows;
    var found := Chat.Opened(sessions, u.hub, u.before);
    Chat.LookupElsewhere(sessions, u.hub, u.before, hub, own);
    Chat.LookupElsewhere(found, u.hub, u.after, hub, own);
    if saved.Some? {
      var call := if ending == Go then Some(b.summary) else None;
      Chat.TurnElsewhere(found, newSessions, newRows, session, u.hub, u.after, call, hub, own);
      Chat.RowsOfAppend(rows, session, saved.value);
    }
  }

  // ---------- a session that can no longer be answered ----------

  lemma LastNKeeps<T>(before: seq<T>, tail: seq<T>, n: nat)
    ensures |tail| <= n ==> LastN(before + tail, n) == LastN(before, n - |tail|) + tail
    ensures |tail| >= n ==> LastN(before + tail, n) == LastN(tail, n)
  {
  }

  lemma LastNOfLastN<T>(before: seq<T>, tail: seq<T>, n: nat)
    ensures LastN(before + tail, n) == LastN(LastN(before, n) + tail, n)
  {
  }

  lemma LastNConverts(ms: seq<Message>, n: nat, valid: string -> bool)
    requires Anthropic.Converts(ms, valid)
    ensures Anthropic.Converts(LastN(ms, n), valid)
  {
    hide Anthropic.Parses;
  }

  lemma TurnsOfSnoc(log: seq<Chat.Append>, a: Chat.Append)
    ensures Chat.Flattened(Chat.TurnsOf(log + [a], a.session)) ==
      Chat.Flattened(Chat.TurnsOf(log, a.session)) + a.messages
  {
    assert (log + [a])[..|log|] == log;
    Chat.FlattenedSnoc(Chat.TurnsOf(log, a.session), a.messages);
  }

  /** The context of a session by its turns. */
  function ContextOfLog(log: seq<Chat.Append>, session: nat): seq<Message>
  {
    LastN(Chat.Flattened(Chat.TurnsOf(log, session)), Chat.CONTEXT_MESSAGE_LIMIT)
  }

  /**
   * After a turn that was answered in a session and stored in it, the session's next context converts, with one
   * exception: the turn ran into the loop bound, its fifth round asked for a tool with malformed arguments, and that
   * round had at most eighteen calls, so that the asking message is still among the last twenty.
   */
  lemma NextContextConverts(log: seq<Chat.Append>, session: nat, text: string, w: World, phrases: Phrases,
                            events: seq<OrchEvent>, end: TurnEnd, valid: string -> bool)
    requires IsTurn(w, phrases, events, end) && !end.ProviderFailed?
    requires Anthropic.RaisesOnConversion(w, ContextOfLog(log, session) + [UserMessage(text)], valid)
    ensures events != [] && events[|events| - 1].OrchDone?
    ensures var stored := Chat.Append(session, [UserMessage(text)] + events[|events| - 1].newMessages);
      Anthropic.Converts(ContextOfLog(log + [stored], session), valid) <==>
        !(end.LoopExceeded? && Anthropic.Broken(w, 4, valid) && |CallsOf(w.provider(4).deltas)| <= 18)
  {
    hide IsTurn, Anthropic.Converts, Anthropic.Broken, Anthropic.RaisesOnConversion, Chat.Flattened, Chat.TurnsOf,
      CallsOf, IsRounds, Paired, Log;
    DoneIsWellFormed(w, phrases, events, end);
    var added := events[|events| - 1].newMessages;
    var context, user := ContextOfLog(log, session), [UserMessage(text)];
    Anthropic.MalformedArgumentsEndTheTurn(w, phrases, events, end, context + user, valid);
    var all := Chat.Flattened(Chat.TurnsOf(log, session));
    TurnsOfSnoc(log, Chat.Append(session, user + added));
    if end.LoopExceeded? && Anthropic.Broken(w, 4, valid) {
      Associative(all, user, added);
      LastRound(all + user, w, phrases, events, end, valid);
    } else {
      NothingAdded(valid);
      Anthropic.ConvertsAppend(context + user, added, valid);
      Associative(context, user, added);
      LastNOfLastN(all, user + added, Chat.CONTEXT_MESSAGE_LIMIT);
      LastNConverts(context + (user + added), Chat.CONTEXT_MESSAGE_LIMIT, valid);
    }
  }

  lemma NothingAdded(valid: string -> bool)
    ensures Anthropic.Converts([], valid)
  {
  }

  /** Whether the asking message of a broken fifth round is still among the last twenty. */
  lemma LastRound(before: seq<Message>, w: World, phrases: Phrases, events: seq<OrchEvent>, end: TurnEnd,
                  valid: string -> bool)
    requires IsTurn(w, phrases, events, end) && end.LoopExceeded? && Anthropic.Broken(w, 4, valid)
    requires events != [] && events[|events| - 1].OrchDone?
    ensures var all := before + events[|events| - 1].newMessages;
      Anthropic.Converts(LastN(all, Chat.CONTEXT_MESSAGE_LIMIT), valid) <==> |CallsOf(w.provider(4).deltas)| > 18
  {
    hide IsTurn, Log, RoundLog, CallsOf, Anthropic.Broken, Anthropic.Converts;
    Anthropic.DoneMessages(w, phrases, events, end);
    var done := events[|events| - 1];
    LogStep(w, 4);
    var head, tail := before + Log(w, 4), RoundLog(w, 4) + [Reply(done.text)];
    assert before + done.newMessages == head + tail;
    RoundSize(w, 4);
    LastNKeeps(head, tail, Chat.CONTEXT_MESSAGE_LIMIT);
    Anthropic.ConvertsAppend(RoundLog(w, 4), [Reply(done.text)], valid);
    Anthropic.RoundConverts(w, 4, valid);
    if |tail| <= Chat.CONTEXT_MESSAGE_LIMIT {
      Anthropic.ConvertsAppend(LastN(head, Chat.CONTEXT_MESSAGE_LIMIT - |tail|), tail, valid);
    } else {
      ResultsConvert(w, 4, done.text, valid);
      assert LastN(tail, Chat.CONTEXT_MESSAGE_LIMIT) == LastN(tail[1..], Chat.CONTEXT_MESSAGE_LIMIT);
      LastNConverts(tail[1..], Chat.CONTEXT_MESSAGE_LIMIT, valid);
    }
  }

  lemma RoundSize(w: World, k: nat)
    ensures |RoundLog(w, k)| == |CallsOf(w.provider(k).deltas)| + 1
  {
    hide CallsOf, TextsOf;
  }

  /** Without its asking message a round converts. */
  lemma ResultsConvert(w: World, k: nat, text: string, valid: string -> bool)
    ensures Anthropic.Converts((RoundLog(w, k) + [Reply(text)])[1..], valid)
  {
    hide CallsOf, TextsOf;
    var calls := CallsOf(w.provider(k).deltas);
    var ms := (RoundLog(w, k) + [Reply(text)])[1..];
    assert ms == Results(w, k, calls) + [Reply(text)];
    forall i | 0 <= i < |ms| ensures Anthropic.Parses(ms[i], valid) {
      if i < |calls| {
        assert ms[i] == ResultMessage(w.tools(k, i).content, calls[i].id);
      }
    }
  }

  /** Every turn on a context that does not convert fails at its first request, without an event. */
  lemma ContextThatDoesNotConvert(context: seq<Message>, text: string, w: World, phrases: Phrases,
                                  events: seq<OrchEvent>, end: TurnEnd, valid: string -> bool)
    requires IsTurn(w, phrases, events, end) && !Anthropic.Converts(context, valid)
    requires Anthropic.RaisesOnConversion(w, context + [UserMessage(text)], valid)
    ensures end == ProviderFailed(0) && events == []
  {
    hide Anthropic.Converts, IsTurn;
    Anthropic.ConvertsAppend(context, [UserMessage(text)], valid);
    Anthropic.MalformedArgumentsEndTheTurn(w, phrases, events, end, context + [UserMessage(text)], valid);
    Anthropic.RaisingEndsTheTurn(w, phrases, events, end, 0);
    NoEvents(w, phrases, events, end);
  }

  lemma NoEvents(w: World, phrases: Phrases, events: seq<OrchEvent>, end: TurnEnd)
    requires IsTurn(w, phrases, events, end) && end == ProviderFailed(0) && w.provider(0).deltas == []
    ensures events == []
  {
  }

  /**
   * While the hub's session is fresh and its context does not convert, an utterance is not answered, and neither the
   * rows nor the activity time change: the session stays as it is until it has been idle for long enough.
   */
  method ServeOnBrokenContext(store: Chat.ChatStore, p: VoicePipeline, startCancelled: bool, u: Utterance,
                              repeatPlease: string, b: Brain, session: nat, ghost valid: string -> bool)
    requires p.Unstarted() && Chat.Latest(store.sessions, u.hub) == Some(session)
    requires Chat.Ongoing(store.sessions, u.hub, u.before)
    requires var context := Chat.ContextOf(store.rows, session);
      && !Anthropic.Converts(context, valid)
      && Anthropic.RaisesOnConversion(b.world, context + [UserMessage(u.Words())], valid)
    modifies store, p
    ensures store.rows == old(store.rows) && store.sessions == old(store.sessions)
  {
    hide IsTurn, Shown, Streamed, Script, Visible, Responses, Audio, StageOf, Chat.ContextOf, Chat.EncodedAll,
      Chat.Ongoing, Anthropic.Converts, Anthropic.RaisesOnConversion;
    hide VoicePipeline.Tracked, VoicePipeline.Shows;
    ghost var context := Chat.ContextOf(store.rows, session);
    ghost var ending, left, t;
    var closed, reply, saved, stored;
    closed, ending, left, reply, saved, stored, t := p.Run(startCancelled, store, u, repeatPlease, b);
    if reply.Some? {
      ContextThatDoesNotConvert(context, u.Words(), b.world, b.phrases, t.events, t.end, valid);
    }
    assert store.rows == old(store.rows) + [];
  }
}
