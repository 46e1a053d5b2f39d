/** One voice pipeline, from the utterance to the stored turn, against an arbitrary world. */
module Pipeline {
  import opened Text
  import opened Llm
  import opened Orchestrator
  import opened Frames
  import Chat
  import Sentence

  /** How an `await` ends. When a cancellation surfaces in it, its effect may or may not have taken place. */
  datatype Outcome = Resumes | CancelledHere(effective: bool)

  /** The outcome of one `await` and whether the hub barges in while it lasts. */
  datatype Await = Await(outcome: Outcome, bargedIn: bool)

  /** The awaits whose exceptions leave the `try` block; each is reached at most once. */
  datatype Site =
    | Recogniser | Transcription
    | Session | Context | DeviceBlock | ScenarioNames
    | SessionAgain | Commit | Summary

  /** What one synthesis yields, and whether it then raises; a synthesiser that cannot be had yields nothing. */
  datatype Speech = Speech(chunks: seq<Pcm>, raises: bool)

  datatype Flow = Go | Raised | Cancelled

  datatype Input = Voice | Query(text: string)

  /** What speech recognition answers; `confident` is the comparison with the threshold. */
  datatype Hearing = Hearing(text: string, confident: bool)

  /** Where the frames are while something is being said, streaming a reply or asking to repeat. */
  function Speaking(repeating: bool, sounding: bool): Stage
  {
    if !repeating then Streaming(sounding) else if sounding then Repeating else Begun
  }

  predicate ErrorReported(s: Stage)
  {
    s == Reported || s == Ended(true)
  }

  /** Inside `try`: in the grammar, and no error reported yet. */
  predicate Closable(s: Stage)
  {
    s != Wrong && !ErrorReported(s)
  }

  /** Where an exception may surface: the error frame must still be allowed there. */
  predicate Raisable(s: Stage, flow: Flow)
  {
    flow == Raised ==> Next(s, ErrorFrame) != Wrong
  }

  /** What the splitter makes of the streamed pieces: sentences in order, then the remainder if long enough. */
  function Script(pieces: seq<string>): seq<string>
  {
    var fed := Sentence.Fed(pieces);
    fed.0 + Optional(Sentence.FlushOf(fed.1))
  }

  function Optional(s: Option<string>): seq<string>
  {
    if s.Some? then [s.value] else []
  }

  predicate Effective(a: Await)
  {
    a.outcome != CancelledHere(false)
  }

  /** The outside of one utterance: what was heard or typed, and when its session is looked up before and after. */
  datatype Utterance = Utterance(input: Input, hearing: Hearing, hub: nat, before: int, after: int)
  {
    /** What the model is asked. */
    function Words(): string
    {
      if input.Query? then input.text else hearing.text
    }

    /** Spoken input that was not understood. */
    predicate Unclear()
    {
      input.Voice? && (hearing.text == "" || !hearing.confident)
    }

    /** The frames an understood utterance or a text query is met with. */
    function Opening(): seq<Frame>
    {
      if input.Voice? then [SttFinal(hearing.text), Thinking] else [Thinking]
    }
  }

  /** The model's side: provider and tools, the fixed phrases, the system prompt, and the later summary call. */
  datatype Brain = Brain(world: World, phrases: Phrases, prompt: Option<string> -> string, summary: Chat.SummaryCall)

  /**
   * What a run went through: the events of its turn, how many were shown, whether the full text was spoken again, the
   * awaits in which the event loop ended and the response was sent, and what the model was asked with.
   */
  datatype Trace = Trace(events: seq<OrchEvent>, end: TurnEnd, seen: nat, again: bool, streamed: nat, at: nat,
                         loaded: nat, context: seq<Message>, asked: seq<seq<Message>>)

  const NO_TRACE := Trace([], LoopExceeded, 0, false, 0, 0, 0, [], [])

  /**
   * `world` says how the task's n-th await ends and whether the hub barges in meanwhile, `fails` which of the awaits
   * with a name raise, `speech` what each synthesis yields. All are arbitrary. Sends do not raise.
   */
  class VoicePipeline {
    const world: nat -> Await
    const fails: Site -> bool
    const speech: nat -> Speech
    var awaits: nat
    var cancelSet: bool
    var frames: seq<Frame>
    /** The await in which each frame was sent. */
    ghost var sentAt: seq<nat>
    /** Texts handed to the synthesiser, in order. */
    var spoken: seq<string>

    constructor (world: nat -> Await, fails: Site -> bool, speech: nat -> Speech)
      ensures this.world == world && this.fails == fails && this.speech == speech
      ensures Unstarted()
    {
      this.world, this.fails, this.speech := world, fails, speech;
      awaits, cancelSet, frames, sentAt, spoken := 0, false, [], [], [];
    }

    ghost predicate Unstarted()
      reads this
    {
      awaits == 0 && !cancelSet && frames == [] && sentAt == [] && spoken == []
    }

    // ---------- what the world has done so far ----------

    /** A cancellation surfaced in one of the first `n` awaits. */
    ghost predicate CancelledBefore(n: nat)
    {
      exists i: nat :: i < n && world(i).outcome.CancelledHere?
    }

    /** The hub barged in during one of the first `n` awaits. */
    ghost predicate BargedBefore(n: nat)
    {
      exists i: nat :: i < n && world(i).bargedIn
    }

    /** Nothing has cancelled the task so far. */
    ghost predicate Live()
      reads this`awaits
    {
      !CancelledBefore(awaits)
    }

    /** Recognition fails; a text query needs none. */
    predicate RecognitionFails(input: Input)
    {
      input.Voice? && (fails(Recogniser) || fails(Transcription))
    }

    predicate ContextFails()
    {
      fails(Session) || fails(Context) || fails(DeviceBlock) || fails(ScenarioNames)
    }

    predicate StoringFails()
    {
      fails(SessionAgain) || fails(Commit) || fails(Summary)
    }

    /** No audio frame has been sent with the cancel event already set when its send began. */
    ghost predicate OnTime()
      reads this`frames, this`sentAt
    {
      |sentAt| == |frames| && forall i :: 0 <= i < |frames| && frames[i].Binary? ==> !BargedBefore(sentAt[i])
    }

    /**
     * No subtitle or tool status is sent with the cancel event already set, and of all audio frames at most the last.
     */
    ghost predicate Punctual()
      reads this`awaits, this`frames, this`sentAt
    {
      && |sentAt| == |frames| && (forall i :: 0 <= i < |frames| ==> sentAt[i] < awaits)
      && (forall i :: 0 <= i < |frames| && IsVisible(frames[i]) ==> !BargedBefore(sentAt[i]))
      && forall i, j :: 0 <= i < j < |frames| && frames[i].Binary? && frames[j].Binary? ==> !BargedBefore(sentAt[i])
    }

    /** The cancel event is set exactly when the hub has barged in, and frames are punctual. */
    ghost predicate Tracked()
      reads this`awaits, this`cancelSet, this`frames, this`sentAt
    {
      (cancelSet <==> BargedBefore(awaits)) && Punctual()
    }

    lemma NothingLate()
      requires Tracked() && !cancelSet
      ensures OnTime()
    {
    }

    /** An await that does not raise. */
    method Pause() returns (flow: Flow)
      requires Tracked() && Live()
      modifies this`awaits, this`cancelSet
      ensures Tracked() && awaits == old(awaits) + 1 && (old(cancelSet) ==> cancelSet)
      ensures flow != Raised && (flow == Cancelled <==> !Live())
      ensures flow == Cancelled <==> world(old(awaits)).outcome.CancelledHere?
      ensures old(InFull()) ==> InFull()
    {
      var a := world(awaits);
      awaits := awaits + 1;
      cancelSet := cancelSet || a.bargedIn;
      flow := if a.outcome.CancelledHere? then Cancelled else Go;
    }

    /** An await whose exception leaves the `try` block. */
    method PauseAt(site: Site) returns (flow: Flow)
      requires Tracked() && Live()
      modifies this`awaits, this`cancelSet
      ensures Tracked() && awaits == old(awaits) + 1 && (old(cancelSet) ==> cancelSet)
      ensures flow == Cancelled <==> !Live()
      ensures flow == Cancelled <==> world(old(awaits)).outcome.CancelledHere?
      ensures flow == Raised <==> flow != Cancelled && fails(site)
    {
      flow := Pause();
      if flow == Go && fails(site) {
        flow := Raised;
      }
    }

    method Send(f: Frame) returns (flow: Flow)
      requires Tracked() && (f.Binary? ==> OnTime()) && (IsVisible(f) ==> !cancelSet)
      modifies this`awaits, this`cancelSet, this`frames, this`sentAt
      ensures Tracked() && (!f.Binary? && old(OnTime()) ==> OnTime())
      ensures awaits == old(awaits) + 1 && (old(cancelSet) ==> cancelSet)
      ensures frames == if Effective(world(old(awaits))) then old(frames) + [f] else old(frames)
      ensures flow == if world(old(awaits)).outcome.CancelledHere? then Cancelled else Go
      ensures old(Live()) ==> (flow == Cancelled <==> !Live())
    {
      var a := world(awaits);
      if Effective(a) {
        frames := frames + [f];
        sentAt := sentAt + [awaits];
      }
      awaits := awaits + 1;
      cancelSet := cancelSet || a.bargedIn;
      flow := if a.outcome.CancelledHere? then Cancelled else Go;
    }

    // ---------- speech ----------

    /** Everything the synthesiser yields for the first `n` texts, in order. */
    function Sounds(n: nat): seq<Pcm>
    {
      if n == 0 then [] else Sounds(n - 1) + speech(n - 1).chunks
    }

    /** The audio sent is a first part of the speech of all the texts, and all of it unless the hub has barged in. */
    ghost predicate InFull()
      reads this`frames, this`spoken, this`cancelSet
    {
      Audio(frames) <= Sounds(|spoken|) && (!cancelSet ==> Audio(frames) == Sounds(|spoken|))
    }

    /** One chunk of speech, after `tts.start` when it is the first. */
    method SendChunk(pcm: Pcm, ttsStarted: bool, ghost repeating: bool)
      returns (started: bool, flow: Flow, ghost sent: bool)
      requires Tracked() && Live() && !cancelSet && StageOf(frames) == Speaking(repeating, ttsStarted)
      modifies this`awaits, this`cancelSet, this`frames, this`sentAt
      ensures Tracked() && awaits > old(awaits) && old(frames) <= frames && (old(cancelSet) ==> cancelSet)
      ensures flow != Raised && (flow == Cancelled <==> !Live()) && Closable(StageOf(frames))
      ensures flow == Go ==> StageOf(frames) == Speaking(repeating, started) && started && sent
      ensures Visible(frames) == Visible(old(frames)) && Responses(frames) == Responses(old(frames))
      ensures Audio(frames) == if sent then Audio(old(frames)) + [pcm] else Audio(old(frames))
    {
      hide StageOf, Visible, Audio, Responses, Punctual, OnTime;
      NothingLate();
      started, sent := ttsStarted, false;
      if !started {
        ProjectionSnoc(frames, TtsStart);
        flow := Send(TtsStart);
        if flow != Go {
          return;
        }
        started := true;
      }
      ProjectionSnoc(frames, Binary(pcm));
      ghost var before := |frames|;
      flow := Send(Binary(pcm));
      sent := |frames| > before;
    }

    /**
     * One text to speech. Whatever goes wrong in synthesis is swallowed. All that the synthesis yields is sent, in
     * order, unless the hub barges in or the task is cancelled.
     */
    method Speak(text: string, ttsStarted: bool, ghost repeating: bool) returns (started: bool, flow: Flow)
      requires Tracked() && Live() && InFull() && StageOf(frames) == Speaking(repeating, ttsStarted)
      requires ttsStarted <==> Audio(frames) != []
      modifies this
      ensures Tracked() && awaits > old(awaits) && old(frames) <= frames
      ensures flow != Raised && (flow == Cancelled <==> !Live()) && Closable(StageOf(frames))
      ensures flow == Go ==>
        StageOf(frames) == Speaking(repeating, started) && (started <==> Audio(frames) != []) && InFull()
      ensures spoken == old(spoken) + [text]
      ensures Visible(frames) == Visible(old(frames)) && Responses(frames) == Responses(old(frames))
      ensures Audio(frames) <= Sounds(|spoken|)
      ensures Audio(frames) <= old(Audio(frames)) + speech(|old(spoken)|).chunks
    {
      hide StageOf, Visible, Audio, Responses, Speaking, Punctual, Sounds, CancelledBefore, BargedBefore, Tracked, Live;
      hide InFull;
      SpeakingIsClosable(repeating);
      FromInFull();
      var n := |spoken|;
      ghost var heard, late := Audio(frames), cancelSet;
      spoken := spoken + [text];
      var chunks := speech(n).chunks;
      var i := 0;
      started := ttsStarted;
      assert heard + chunks[..0] == heard;
      StillInFull(heard, n, 0, late);
      flow := Pause();
      StillInFull(heard, n, 0, late);
      if flow != Go {
        return;
      }
      while true
        invariant Tracked() && Live() && awaits > old(awaits) && old(frames) <= frames
        invariant flow == Go && i <= |chunks| && (late ==> i == 0 && cancelSet)
        invariant StageOf(frames) == Speaking(repeating, started) && (started <==> Audio(frames) != [])
        invariant Visible(frames) == Visible(old(frames)) && Responses(frames) == Responses(old(frames))
        invariant Audio(frames) == heard + chunks[..i]
        invariant spoken == old(spoken) + [text]
        decreases |chunks| - i
      {
        StillInFull(heard, n, i, late);
        flow := Pause();
        StillInFull(heard, n, i, late);
        if flow != Go {
          return;
        }
        if i == |chunks| {
          // the synthesis has ended or raised, which makes no difference from here on
          return;
        }
        if cancelSet {
          return;
        }
        AudioStep(heard, chunks, i);
        ghost var sent;
        started, flow, sent := SendChunk(chunks[i], started, repeating);
        StillInFull(heard, n, if sent then i + 1 else i, late);
        if flow != Go {
          return;
        }
        i := i + 1;
      }
    }

    lemma FromInFull()
      requires InFull()
      ensures Audio(frames) <= Sounds(|spoken|) && (!cancelSet ==> Audio(frames) == Sounds(|spoken|))
    {
    }

    lemma NextSounds(n: nat)
      ensures Sounds(n + 1) == Sounds(n) + speech(n).chunks
    {
    }

    /** After the first `i` chunks of the `n`-th text, none of them if the event was set from the start. */
    lemma StillInFull(heard: seq<Pcm>, n: nat, i: nat, late: bool)
      requires |spoken| == n + 1 && i <= |speech(n).chunks| && Audio(frames) == heard + speech(n).chunks[..i]
      requires heard <= Sounds(n) && (!late ==> heard == Sounds(n)) && (late ==> i == 0 && cancelSet)
      ensures Audio(frames) <= Sounds(n + 1) && Audio(frames) <= heard + speech(n).chunks
      ensures i == |speech(n).chunks| || cancelSet ==> InFull()
    {
      hide Audio, Sounds;
      NextSounds(n);
      var chunks := speech(n).chunks;
      assert chunks == chunks[..i] + chunks[i..];
      assert heard + chunks == (heard + chunks[..i]) + chunks[i..];
      if late {
        assert heard + chunks[..0] == heard;
      }
    }

    /** `tts.end` if speech was started, then the response. */
    method SendResponse(text: string, started: bool, ghost repeating: bool) returns (flow: Flow)
      requires Tracked() && Live() && StageOf(frames) == Speaking(repeating, started)
      modifies this`awaits, this`cancelSet, this`frames, this`sentAt
      ensures Tracked() && awaits > old(awaits) && old(frames) <= frames && (old(cancelSet) ==> cancelSet)
      ensures flow != Raised && (flow == Cancelled <==> !Live()) && Closable(StageOf(frames))
      ensures flow == Go ==> StageOf(frames) == Answered && Responses(frames) == Responses(old(frames)) + [text]
      ensures Visible(frames) == Visible(old(frames)) && Audio(frames) == Audio(old(frames))
      ensures old(InFull()) ==> InFull()
    {
      hide StageOf, Visible, Audio, Responses, Punctual, Tracked, Live, CancelledBefore, BargedBefore, Sounds;
      if started {
        ProjectionSnoc(frames, TtsEnd);
        flow := Send(TtsEnd);
        if flow != Go {
          return;
        }
      }
      ProjectionSnoc(frames, Response(text));
      flow := Send(Response(text));
    }

    /** A fixed reply that asks the user to repeat. */
    method RespondFixed(message: string) returns (flow: Flow)
      requires Tracked() && Live() && StageOf(frames) == Begun && Untouched()
      modifies this
      ensures Tracked() && awaits > old(awaits) && old(frames) <= frames
      ensures flow != Raised && (flow == Cancelled <==> !Live()) && Closable(StageOf(frames))
      ensures flow == Go ==> StageOf(frames) == Answered && Responses(frames) == Responses(old(frames)) + [message]
      ensures flow == Go ==> InFull()
      ensures spoken == [message] && Visible(frames) == Visible(old(frames)) && Audio(frames) <= Sounds(1)
    {
      hide StageOf, Visible, Audio, Responses, Punctual;
      var started: bool;
      started, flow := Speak(message, false, true);
      if flow != Go {
        return;
      }
      flow := SendResponse(message, started, true);
    }

    /** The frames shown so far are those of `events`, and what was said is what the splitter made of them. */
    ghost predicate InStep(events: seq<OrchEvent>, started: bool, buffer: string)
      reads this
    {
      && Tracked() && Live()
      && StageOf(frames) == Streaming(started)
      && (started <==> Audio(frames) != [])
      && InFull()
      && Responses(frames) == []
      && Visible(frames) == Shown(events)
      && spoken == Sentence.Fed(Streamed(events)).0
      && buffer == Sentence.Fed(Streamed(events)).1
    }

    /** The sentences cut off by one piece of text. */
    method SpeakAll(sentences: seq<string>, ttsStarted: bool) returns (started: bool, flow: Flow)
      requires Tracked() && Live() && StageOf(frames) == Streaming(ttsStarted)
      requires (ttsStarted <==> Audio(frames) != []) && InFull()
      modifies this
      ensures Tracked() && awaits >= old(awaits) && old(frames) <= frames
      ensures flow != Raised && (flow == Cancelled <==> !Live()) && Closable(StageOf(frames))
      ensures Visible(frames) == Visible(old(frames)) && Responses(frames) == Responses(old(frames))
      ensures flow == Go ==> StageOf(frames) == Streaming(started) && (started <==> Audio(frames) != []) && InFull()
      ensures spoken <= old(spoken) + sentences && (flow == Go ==> spoken == old(spoken) + sentences)
      ensures Audio(frames) <= Sounds(|spoken|)
    {
      hide StageOf, Visible, Audio, Responses, Punctual, CancelledBefore, BargedBefore, Tracked, Live, InFull, Sounds;
      FromInFull();
      started, flow := ttsStarted, Go;
      for i := 0 to |sentences|
        invariant Tracked() && Live() && awaits >= old(awaits) && old(frames) <= frames
        invariant flow == Go && StageOf(frames) == Streaming(started)
        invariant (started <==> Audio(frames) != []) && InFull()
        invariant Visible(frames) == Visible(old(frames)) && Responses(frames) == Responses(old(frames))
        invariant spoken == old(spoken) + sentences[..i]
      {
        started, flow := Speak(sentences[i], started, false);
        SpokenStep(old(spoken), sentences, i);
        if flow != Go {
          return;
        }
      }
      assert sentences[..|sentences|] == sentences;
      FromInFull();
    }

    /**
     * Nothing is spoken before its subtitle: what has been spoken so far is cut from the text already shown, but for
     * at most one fixed or full text at the end.
     */
    ghost predicate Captioned(shown: seq<OrchEvent>)
      reads this`spoken
    {
      spoken <= Script(Streamed(shown)) || (spoken != [] && spoken[..|spoken| - 1] == Script(Streamed(shown)))
    }

    lemma CaptionedSoFar(shown: seq<OrchEvent>)
      requires spoken <= Sentence.Fed(Streamed(shown)).0
      ensures Captioned(shown)
    {
      hide Sentence.Fed, Sentence.FlushOf, Streamed;
    }

    lemma SilenceIsCaptioned()
      ensures |spoken| <= 1 ==> Captioned([])
    {
      NothingShown();
    }

    /** Show one event. */
    method ShowEvent(event: OrchEvent, splitter: Sentence.SentenceSplitter, ttsStarted: bool,
                     ghost shown: seq<OrchEvent>)
      returns (started: bool, flow: Flow, ghost captioned: bool)
      requires InStep(shown, ttsStarted, splitter.buffer) && !cancelSet && !event.OrchDone?
      modifies this, splitter
      ensures Tracked() && awaits > old(awaits) && old(frames) <= frames
      ensures flow != Raised && (flow == Cancelled <==> !Live())
      ensures Closable(StageOf(frames)) && Responses(frames) == [] && Audio(frames) <= Sounds(|spoken|)
      ensures flow == Go ==> captioned && InStep(shown + [event], started, splitter.buffer)
      ensures var sofar := if captioned then shown + [event] else shown;
        Visible(frames) == Shown(sofar) && spoken <= Sentence.Fed(Streamed(sofar)).0
    {
      hide StageOf, Visible, Audio, Responses, Sentence.Fed, Shown, Streamed, Punctual, CancelledBefore, BargedBefore;
      hide Sounds, Sentence.Sentences, Sentence.Rest;
      started := ttsStarted;
      EventStep(shown, event);
      ghost var before := |frames|;
      match event
      case OrchText(text) =>
        ProjectionSnoc(frames, LlmDelta(text));
        flow := Send(LlmDelta(text));
        captioned := |frames| > before;
        if flow != Go {
          return;
        }
        var sentences := splitter.Feed(text);
        started, flow := SpeakAll(sentences, started);
      case OrchStatus(tool, status) =>
        ProjectionSnoc(frames, ToolStatus(tool, status));
        flow := Send(ToolStatus(tool, status));
        captioned := |frames| > before;
    }

    /**
     * The event loop. It stops at the first event seen with the cancel event set; `done` is the final event
     * when it was reached, and then every event was shown. Nothing but a barge-in, a cancellation or the provider's
     * exception keeps it from reaching the end of the turn.
     */
    method StreamReply(events: seq<OrchEvent>, end: TurnEnd, splitter: Sentence.SentenceSplitter)
      returns (flow: Flow, done: Option<OrchEvent>, started: bool, ghost seen: nat)
      requires InStep([], false, splitter.buffer)
      requires forall i :: 0 <= i < |events| - 1 ==> !events[i].OrchDone?
      requires end.ProviderFailed? ==> forall i :: 0 <= i < |events| ==> !events[i].OrchDone?
      modifies this, splitter
      ensures Tracked() && awaits > old(awaits) && old(frames) <= frames
      ensures flow == Cancelled <==> !Live()
      ensures flow == Raised ==> end.ProviderFailed? && seen == |events|
      ensures Closable(StageOf(frames)) && Responses(frames) == [] && Audio(frames) <= Sounds(|spoken|)
      ensures flow != Go ==> Raisable(StageOf(frames), flow)
      ensures flow == Go && !cancelSet ==>
        !end.ProviderFailed? && (done.Some? || events == [] || !events[|events| - 1].OrchDone?)
      ensures flow == Go ==> StageOf(frames) == Streaming(started)
      ensures flow == Go && done.Some? ==>
        && events != [] && done.value == events[|events| - 1] && done.value.OrchDone? && seen == |events| - 1
        && InStep(events[..|events| - 1], started, splitter.buffer)
      ensures seen <= |events| && Visible(frames) == Shown(events[..seen])
      ensures spoken <= Sentence.Fed(Streamed(events[..seen])).0
    {
      hide StageOf, Visible, Audio, Responses, Sentence.Fed, Shown, Streamed, Punctual;
      hide CancelledBefore, BargedBefore, Tracked, Live, InFull, Sounds;
      done, started, seen := None, false, 0;
      var i := 0;
      assert events[..0] == [];
      while true
        invariant i <= |events| && awaits >= old(awaits) && old(frames) <= frames
        invariant done.Some? ==> i == |events| > 0 && done.value == events[i - 1] && done.value.OrchDone?
        invariant done.None? ==> forall k :: 0 <= k < i ==> !events[k].OrchDone?
        invariant seen == (if done.Some? then i - 1 else i)
        invariant InStep(events[..seen], started, splitter.buffer)
        decreases |events| - i
      {
        flow := Pause();
        FromInFull();
        if flow != Go {
          return;
        }
        if i == |events| {
          flow := if end.ProviderFailed? then Raised else Go;
          return;
        }
        if cancelSet {
          return;
        }
        assert events[..i + 1] == events[..i] + [events[i]];
        match events[i] {
          case OrchDone(_, _, _) =>
            done := Some(events[i]);
          case _ =>
            ghost var captioned;
            started, flow, captioned := ShowEvent(events[i], splitter, started, events[..i]);
            seen := if captioned then i + 1 else i;
            if flow != Go {
              return;
            }
        }
        i := i + 1;
      }
    }

    /** After the last event: the remainder, the full text when nothing has sounded, then the response. */
    method FinishReply(done: OrchEvent, splitter: Sentence.SentenceSplitter, ttsStarted: bool,
                       ghost shown: seq<OrchEvent>)
      returns (flow: Flow, ghost again: bool)
      requires done.OrchDone? && InStep(shown, ttsStarted, splitter.buffer)
      modifies this, splitter
      ensures Tracked() && awaits > old(awaits) && old(frames) <= frames
      ensures flow != Raised && (flow == Cancelled <==> !Live())
      ensures Closable(StageOf(frames)) && Visible(frames) == old(Visible(frames)) && Audio(frames) <= Sounds(|spoken|)
      ensures Captioned(shown)
      ensures flow == Go ==>
        && StageOf(frames) == Answered
        && Responses(frames) == [done.text]
        && spoken == Script(Streamed(shown)) + (if again then [done.text] else [])
        && (again ==> done.text != "" && Audio(frames) <= speech(|Script(Streamed(shown))|).chunks)
        && (!again && Audio(frames) == [] ==> done.text == "")
        && InFull()
    {
      hide StageOf, Visible, Audio, Responses, Sentence.Fed, Sentence.FlushOf, Streamed, Shown, Script, Punctual;
      hide CancelledBefore, BargedBefore, Sounds, Tracked, Live, InFull;
      FromInFull();
      var started := ttsStarted;
      again, flow := false, Go;
      var remainder := splitter.Flush();
      assert remainder == Sentence.FlushOf(Sentence.Fed(Streamed(shown)).1);
      FlushNotEmpty(Sentence.Fed(Streamed(shown)).1);
      SameScript(shown);
      if remainder.Some? && remainder.value != "" {
        started, flow := Speak(remainder.value, started, false);
        if flow != Go {
          return;
        }
      }
      assert spoken == Script(Streamed(shown));
      if !started && done.text != "" {
        again := true;
        started, flow := Speak(done.text, started, false);
        if flow != Go {
          return;
        }
      }
      flow := SendResponse(done.text, started, false);
    }

    // ---------- the turn ----------

    ghost predicate Untouched()
      reads this`frames, this`spoken
    {
      spoken == [] && Audio(frames) == [] && Responses(frames) == [] && Visible(frames) == []
    }

    /** `state thinking`, then the session, its context, the device block and the scenario names. */
    method Prepare(store: Chat.ChatStore, u: Utterance)
      returns (flow: Flow, session: nat, context: seq<Message>, summary: Option<string>)
      requires Tracked() && Live() && Untouched()
      requires StageOf(frames) == Begun || StageOf(frames) == Heard
      modifies this`awaits, this`cancelSet, this`frames, this`sentAt, store`sessions
      ensures Tracked() && awaits > old(awaits) && old(frames) <= frames
      ensures flow == Cancelled <==> !Live()
      ensures flow != Cancelled ==> (flow == Raised <==> ContextFails())
      ensures Closable(StageOf(frames)) && Raisable(StageOf(frames), flow) && Untouched()
      ensures flow == Go ==> StageOf(frames) == Streaming(false) && old(frames) + [Thinking] <= frames
      ensures flow == Go ==>
        && session < |store.sessions| && Chat.Latest(store.sessions, u.hub) == Some(session)
        && context == Chat.ContextOf(store.rows, session) && summary == Chat.SummaryOf(old(store.sessions), session)
      ensures
        store.sessions == old(store.sessions) || store.sessions == Chat.Opened(old(store.sessions), u.hub, u.before)
      ensures flow == Go ==> store.sessions == Chat.Opened(old(store.sessions), u.hub, u.before)
    {
      hide StageOf, Visible, Audio, Responses, Punctual, CancelledBefore, BargedBefore, Live, Tracked;
      session, context, summary := 0, [], None;
      ProjectionSnoc(frames, Thinking);
      flow := Send(Thinking);
      if flow == Go {
        flow, session, context, summary := Load(store, u);
      }
    }

    method Load(store: Chat.ChatStore, u: Utterance)
      returns (flow: Flow, session: nat, context: seq<Message>, summary: Option<string>)
      requires Tracked() && Live()
      modifies this`awaits, this`cancelSet, store`sessions
      ensures Tracked() && awaits > old(awaits)
      ensures flow == Cancelled <==> !Live()
      ensures flow != Cancelled ==> (flow == Raised <==> ContextFails())
      ensures flow == Go ==>
        && session < |store.sessions| && Chat.Latest(store.sessions, u.hub) == Some(session)
        && context == Chat.ContextOf(store.rows, session) && summary == Chat.SummaryOf(old(store.sessions), session)
      ensures
        store.sessions == old(store.sessions) || store.sessions == Chat.Opened(old(store.sessions), u.hub, u.before)
      ensures flow == Go ==> store.sessions == Chat.Opened(old(store.sessions), u.hub, u.before)
    {
      hide Tracked, Live, Chat.ContextOf;
      session, context, summary := 0, [], None;
      var opens := Effective(world(awaits));
      flow := PauseAt(Session);
      if flow == Go || (flow == Cancelled && opens) {
        session := store.GetOrCreateSession(u.hub, u.before);
      }
      if flow != Go {
        return;
      }
      flow := PauseAt(Context);
      if flow != Go {
        return;
      }
      context, summary := store.LoadContext(session);
      flow := PauseAt(DeviceBlock);
      if flow != Go {
        return;
      }
      flow := PauseAt(ScenarioNames);
    }

    /**
     * The turn itself, up to its response. `reply` is the final event once the response has been sent, in await
     * `at`, and then the hub had not barged in when the event loop ended, in await `streamed`. Without one, the task
     * was cancelled, the provider raised, or the hub barged in.
     */
    method Converse(turn: seq<OrchEvent>, end: TurnEnd, ghost b: Brain)
      returns (flow: Flow, reply: Option<OrchEvent>, ghost seen: nat, ghost again: bool, ghost streamed: nat,
               ghost at: nat)
      requires IsTurn(b.world, b.phrases, turn, end)
      requires Tracked() && Live() && StageOf(frames) == Streaming(false) && Untouched()
      modifies this
      ensures Tracked() && awaits > old(awaits) && old(frames) <= frames
      ensures flow == Cancelled <==> !Live()
      ensures flow == Raised ==> end.ProviderFailed? && seen == |turn|
      ensures Closable(StageOf(frames)) && Raisable(StageOf(frames), flow) && Audio(frames) <= Sounds(|spoken|)
      ensures seen <= |turn| && Visible(frames) == Shown(turn[..seen]) && Captioned(turn[..seen])
      ensures reply.Some? ==> reply.value.OrchDone? && flow == Go && StageOf(frames) == Answered
      ensures reply.Some? ==> at <= awaits && Replied(turn, reply.value, again, streamed, at)
      ensures reply.None? && flow == Go ==>
        StageOf(frames) == Ended(false) && Responses(frames) == [] && BargedBefore(awaits)
    {
      hide StageOf, Visible, Audio, Responses, Sentence.Fed, Sentence.FlushOf, Shown, Streamed, IsTurn, Script,
        Punctual, Sounds;
      reply, again, streamed, at := None, false, 0, 0;
      NothingShown();
      OneDone(b.world, b.phrases, turn, end);
      NoSounds();
      var splitter := new Sentence.SentenceSplitter();
      var done: Option<OrchEvent>;
      var started;
      flow, done, started, seen := StreamReply(turn, end, splitter);
      CaptionedSoFar(turn[..seen]);
      streamed := awaits;
      if flow != Go {
        return;
      }
      if cancelSet || done.None? {
        ProjectionSnoc(frames, Idle);
        flow := Send(Idle);
        return;
      }
      ghost var shown := turn[..|turn| - 1];
      flow, again := FinishReply(done.value, splitter, started, shown);
      if flow == Go {
        reply := done;
        at := awaits;
      }
    }

    lemma NoSounds()
      ensures Sounds(0) == []
    {
    }

    /**
     * The session again, the commit of the turn, the summary. `saved` is what was committed to `session`, and then
     * the rows are longer by exactly that.
     */
    method StoreTurn(store: Chat.ChatStore, u: Utterance, messages: seq<Message>, call: Chat.SummaryCall)
      returns (flow: Flow, saved: Option<seq<Message>>, session: nat)
      requires Tracked() && Live()
      modifies this`awaits, this`cancelSet, store
      ensures Tracked() && awaits > old(awaits)
      ensures flow == Cancelled <==> !Live()
      ensures flow != Cancelled ==> (flow == Raised <==> StoringFails())
      ensures flow != Cancelled ==> (saved.Some? <==> !fails(SessionAgain) && !fails(Commit))
      ensures saved.Some? ==> saved.value == messages
      ensures store.rows == old(store.rows) + if saved.Some? then Chat.EncodedAll(session, messages) else []
      ensures saved.Some? ==>
        Chat.TurnStored(old(store.sessions), store.sessions, store.rows, session, u.hub, u.after,
                        if flow == Go then Some(call) else None)
      ensures saved.None? ==>
        store.sessions == old(store.sessions) || store.sessions == Chat.Opened(old(store.sessions), u.hub, u.after)
    {
      hide Tracked, Live, Chat.EncodedAll, Chat.RowsOf, Chat.AfterSummary, Chat.TurnStored;
      saved, session := None, 0;
      var opens := Effective(world(awaits));
      flow := PauseAt(SessionAgain);
      if flow == Go || (flow == Cancelled && opens) {
        session := store.GetOrCreateSession(u.hub, u.after);
      }
      if flow != Go {
        return;
      }
      var commits := Effective(world(awaits));
      flow := PauseAt(Commit);
      if flow == Go || (flow == Cancelled && commits) {
        Chat.CommittedTurn(old(store.sessions), store.sessions, store.rows + Chat.EncodedAll(session, messages),
                           session, u.hub, u.after);
        store.AppendMessages(session, messages, u.after);
        saved := Some(messages);
      }
      if flow != Go {
        return;
      }
      flow := PauseAt(Summary);
      if flow == Go {
        ghost var committed := store.sessions;
        var _ := store.MaybeRollSummary(session, call);
        Chat.SummarisedTurn(old(store.sessions), committed, store.sessions, store.rows, session, u.hub, u.after, call);
      }
    }

    /** What the trace says about the turn so far. */
    ghost predicate Shows(b: Brain, t: Trace)
      reads this`frames, this`spoken
    {
      && (IsTurn(b.world, b.phrases, t.events, t.end) || t.events == [])
      && t.seen <= |t.events| && Visible(frames) == Shown(t.events[..t.seen]) && Captioned(t.events[..t.seen])
    }

    /**
     * What a run leaves in the store. The rows grow by exactly what was saved, and then the sessions are those of the
     * turn stored in them; without that, at most the lookups have opened a session. The model was asked with what the
     * session found by the first lookup held.
     */
    static ghost predicate StoreAfter(u: Utterance, b: Brain, t: Trace, answered: bool, ending: Flow,
                                      saved: Option<seq<Message>>, session: nat,
                                      sessions: seq<Chat.Session>, rows: seq<Chat.Row>,
                                      newSessions: seq<Chat.Session>, newRows: seq<Chat.Row>)
    {
      var found := Chat.Opened(sessions, u.hub, u.before);
      && newRows == rows + (if saved.Some? then Chat.EncodedAll(session, saved.value) else [])
      && (saved.Some? ==>
        Chat.TurnStored(found, newSessions, newRows, session, u.hub, u.after,
                        if ending == Go then Some(b.summary) else None))
      && (saved.None? ==>
        || newSessions == sessions || newSessions == found
        || (answered && newSessions == Chat.Opened(found, u.hub, u.after)))
      && (t.asked != [] ==> AskedWith(u, b, t, sessions, rows) && Chat.Latest(found, u.hub) == Some(t.loaded))
    }

    /** As long as nothing has been saved, at most the first lookup has opened a session. */
    lemma NothingStored(u: Utterance, b: Brain, t: Trace, answered: bool, ending: Flow, session: nat,
                        sessions: seq<Chat.Session>, rows: seq<Chat.Row>, newSessions: seq<Chat.Session>)
      requires newSessions == sessions || newSessions == Chat.Opened(sessions, u.hub, u.before)
      requires t.asked != [] ==>
        && AskedWith(u, b, t, sessions, rows)
        && Chat.Latest(Chat.Opened(sessions, u.hub, u.before), u.hub) == Some(t.loaded)
      ensures StoreAfter(u, b, t, answered, ending, None, session, sessions, rows, newSessions, rows)
    {
      assert rows + [] == rows;
    }

    /** The model was asked with the prompt of the loaded session, its context and the user's words. */
    static ghost predicate AskedWith(u: Utterance, b: Brain, t: Trace, sessions: seq<Chat.Session>, rows: seq<Chat.Row>)
    {
      && t.context == Chat.ContextOf(rows, t.loaded)
      && Asked(t.asked, b.prompt(Chat.SummaryOf(sessions, t.loaded)), t.context + [UserMessage(u.Words())], b.world)
    }

    /** From `state thinking` to the stored turn. */
    method Answer(store: Chat.ChatStore, u: Utterance, b: Brain)
      returns (flow: Flow, reply: Option<OrchEvent>, saved: Option<seq<Message>>, session: nat, ghost t: Trace)
      requires StageOf(frames) == Begun || StageOf(frames) == Heard
      requires Tracked() && Live() && Untouched()
      modifies this, store
      ensures Tracked() && awaits > old(awaits) && old(frames) <= frames
      ensures flow == Cancelled <==> !Live()
      ensures Closable(StageOf(frames)) && Raisable(StageOf(frames), flow) && Audio(frames) <= Sounds(|spoken|)
      ensures Shows(b, t)
      ensures StoreAfter(u, b, t, reply.Some?, flow, saved, session, old(store.sessions), old(store.rows),
                         store.sessions, store.rows)
      ensures reply.Some? ==>
        && IsTurn(b.world, b.phrases, t.events, t.end) && t.asked != []
        && t.at <= awaits && Replied(t.events, reply.value, t.again, t.streamed, t.at)
      ensures reply.None? ==> saved.None?
      ensures saved.Some? ==> saved.value == [UserMessage(u.Words())] + reply.value.newMessages
      ensures flow != Cancelled && ContextFails() ==>
        flow == Raised && t.asked == [] && reply.None? && Untouched()
      ensures flow != Cancelled && !ContextFails() ==>
        && IsTurn(b.world, b.phrases, t.events, t.end) && t.asked != [] && old(frames) + [Thinking] <= frames
        && (reply.Some? ==>
          (flow == Raised <==> StoringFails()) && (saved.Some? <==> !fails(SessionAgain) && !fails(Commit)))
        && (reply.None? && flow == Raised ==> t.end.ProviderFailed? && t.seen == |t.events|)
        && (reply.None? && flow == Go ==> BargedBefore(awaits))
    {
      hide StageOf, Shown, IsTurn, Visible, Audio, Responses, Script, Streamed, Punctual, Replied, Captioned, Sounds,
        Chat.EncodedAll, CancelledBefore, BargedBefore, Live, Tracked, InFull, Chat.ContextOf, StoreAfter, Chat.Opened,
        Chat.TurnStored;
      reply, saved, session, t := None, None, 0, NO_TRACE;
      NothingShown();
      assert NO_TRACE.events[..0] == [];
      var loaded, context, summary;
      flow, loaded, context, summary := Prepare(store, u);
      SilenceIsCaptioned();
      NoSounds();
      NothingStored(u, b, t, false, flow, 0, old(store.sessions), store.rows, store.sessions);
      if flow != Go {
        return;
      }
      var turn, end, requests :=
        CallOrchestrator(b.prompt(summary), context + [UserMessage(u.Words())], b.world, b.phrases);
      ghost var seen, again, streamed, at;
      flow, reply, seen, again, streamed, at := Converse(turn, end, b);
      t := Trace(turn, end, seen, again, streamed, at, loaded, context, requests);
      NothingStored(u, b, t, reply.Some?, flow, 0, old(store.sessions), store.rows, store.sessions);
      if flow != Go || reply.None? {
        return;
      }
      ghost var found, rows := store.sessions, store.rows;
      flow, saved, session := StoreTurn(store, u, [UserMessage(u.Words())] + reply.value.newMessages, b.summary);
      StoreLater(u, b, t, flow, saved, session, old(store.sessions), found, rows, store.sessions, store.rows);
    }

    lemma StoreLater(u: Utterance, b: Brain, t: Trace, ending: Flow, saved: Option<seq<Message>>, session: nat,
                     sessions: seq<Chat.Session>, found: seq<Chat.Session>, rows: seq<Chat.Row>,
                     newSessions: seq<Chat.Session>, newRows: seq<Chat.Row>)
      requires found == Chat.Opened(sessions, u.hub, u.before)
      requires StoreAfter(u, b, t, true, Go, None, 0, sessions, rows, found, rows)
      requires newRows == rows + if saved.Some? then Chat.EncodedAll(session, saved.value) else []
      requires saved.Some? ==>
        Chat.TurnStored(found, newSessions, newRows, session, u.hub, u.after,
                        if ending == Go then Some(b.summary) else None)
      requires saved.None? ==> newSessions == found || newSessions == Chat.Opened(found, u.hub, u.after)
      ensures StoreAfter(u, b, t, true, ending, saved, session, sessions, rows, newSessions, newRows)
    {
      hide Chat.TurnStored, Chat.EncodedAll, Chat.Opened, Chat.Latest, AskedWith;
    }

    /** The `try` block: recognition when there is audio, asking to repeat when it is unclear, else the turn. */
    method Respond(store: Chat.ChatStore, u: Utterance, repeatPlease: string, b: Brain)
      returns (flow: Flow, reply: Option<OrchEvent>, saved: Option<seq<Message>>, session: nat, ghost t: Trace)
      requires Unstarted()
      modifies this, store
      ensures Tracked() && (flow == Cancelled <==> !Live())
      ensures Closable(StageOf(frames)) && Raisable(StageOf(frames), flow) && Audio(frames) <= Sounds(|spoken|)
      ensures Shows(b, t)
      ensures Ends(flow, awaits, reply, saved, u, repeatPlease, b, t)
      ensures StoreAfter(u, b, t, reply.Some?, flow, saved, session, old(store.sessions), old(store.rows),
                         store.sessions, store.rows)
      ensures flow != Cancelled && (RecognitionFails(u.input) || u.Unclear()) ==> store.sessions == old(store.sessions)
    {
      hide StageOf, Visible, Audio, Responses, Shown, Streamed, IsTurn, Replied, Captioned, Script, Punctual, Sounds,
        Chat.EncodedAll, CancelledBefore, BargedBefore, Chat.ContextOf, Tracked, InFull, HeardAll, AskedWith;
      reply, saved, session, t := None, None, 0, NO_TRACE;
      NothingShown();
      NoFrames();
      NothingDone();
      assert Untouched();
      hide Untouched;
      NoSounds();
      SilenceIsCaptioned();
      assert NO_TRACE.events[..0] == [];
      if u.input.Voice? {
        flow := PauseAt(Recogniser);
        if flow == Go {
          flow := PauseAt(Transcription);
        }
        SilenceIsCaptioned();
        if flow != Go {
          return;
        }
        if u.hearing.text == "" || !u.hearing.confident {
          flow := RespondFixed(repeatPlease);
          SilenceIsCaptioned();
          if flow == Go {
            FullIsHeard();
          }
          return;
        }
        flow := SendTranscript(u.hearing.text);
        SilenceIsCaptioned();
        if flow != Go {
          return;
        }
      }
      flow, reply, saved, session, t := Answer(store, u, b);
    }

    method SendTranscript(text: string) returns (flow: Flow)
      requires Tracked() && Live() && Untouched() && frames == [] && StageOf(frames) == Begun
      modifies this`awaits, this`cancelSet, this`frames, this`sentAt
      ensures Tracked() && awaits > old(awaits) && Untouched()
      ensures flow != Raised && (flow == Cancelled <==> !Live()) && Closable(StageOf(frames))
      ensures flow == Go ==> frames == [SttFinal(text)] && StageOf(frames) == Heard
    {
      hide StageOf, Visible, Audio, Responses, Punctual;
      ProjectionSnoc(frames, SttFinal(text));
      flow := Send(SttFinal(text));
    }

    lemma FullIsHeard()
      requires Tracked() && InFull()
      ensures HeardAll(awaits)
    {
    }

    lemma NothingDone()
      requires Unstarted()
      ensures Tracked() && Live() && InFull()
    {
    }

    /**
     * How the `try` block ends, whatever the world. Unless it is cancelled: an exception ends it exactly when
     * recognition raises, or the speech is clear and the context cannot be loaded, or the provider's exception is
     * reached, or the answered turn cannot be stored. Unclear speech gets the request to repeat, everything else the
     * whole turn, unless the hub barges in.
     */
    ghost predicate Ends(ending: Flow, left: nat, reply: Option<OrchEvent>, saved: Option<seq<Message>>, u: Utterance,
                         repeatPlease: string, b: Brain, t: Trace)
      reads this`frames, this`spoken
    {
      && (ending == Cancelled <==> CancelledBefore(left))
      && (reply.Some? ==>
        && IsTurn(b.world, b.phrases, t.events, t.end) && t.asked != []
        && t.at <= left && Replied(t.events, reply.value, t.again, t.streamed, t.at))
      && (saved.Some? ==> reply.Some? && saved.value == [UserMessage(u.Words())] + reply.value.newMessages)
      && (ending != Cancelled ==>
        if RecognitionFails(u.input) then ending == Raised && Untouched() && reply.None?
        else if u.Unclear() then
          && ending == Go && reply.None?
          && spoken == [repeatPlease] && Responses(frames) == [repeatPlease] && HeardAll(left)
        else if ContextFails() then ending == Raised && Untouched() && reply.None?
        else
          && IsTurn(b.world, b.phrases, t.events, t.end) && t.asked != [] && u.Opening() <= frames
          && (reply.Some? ==>
            (ending == Raised <==> StoringFails()) && (saved.Some? <==> !fails(SessionAgain) && !fails(Commit)))
          && (reply.None? && ending == Raised ==> t.end.ProviderFailed? && t.seen == |t.events|)
          && (reply.None? && ending == Go ==> BargedBefore(left)))
    }

    /** Unless the hub barged in during the first `n` awaits, all the speech has been sent. */
    ghost predicate HeardAll(n: nat)
      reads this`frames, this`spoken
    {
      !BargedBefore(n) ==> Audio(frames) == Sounds(|spoken|)
    }

    /** `except` and `finally`: the error frame when something was raised, then `state idle`. */
    method CloseOut(ending: Flow) returns (closed: bool)
      requires Tracked() && Closable(StageOf(frames)) && Raisable(StageOf(frames), ending)
      modifies this`awaits, this`cancelSet, this`frames, this`sentAt
      ensures Tracked() && awaits == old(awaits) + if ending == Raised then 2 else 1
      ensures frames == old(frames)
        + (if ending == Raised && Effective(world(old(awaits))) then [ErrorFrame] else [])
        + (if Effective(world(awaits - 1)) then [Idle] else [])
      ensures closed <==> Effective(world(awaits - 1))
      ensures StageOf(frames) != Wrong && (closed ==> StageOf(frames).Ended?)
      ensures ErrorReported(StageOf(frames)) <==> ending == Raised && Effective(world(old(awaits)))
      ensures Visible(frames) == Visible(old(frames)) && Responses(frames) == Responses(old(frames))
      ensures Audio(frames) == Audio(old(frames))
    {
      hide StageOf, Visible, Audio, Responses, Punctual;
      var flow := ending;
      if flow == Raised {
        ProjectionSnoc(frames, ErrorFrame);
        flow := Send(ErrorFrame);
      }
      ProjectionSnoc(frames, Idle);
      var sent := |frames|;
      flow := Send(Idle);
      closed := |frames| > sent;
    }

    /**
     * The whole task. Cancelled before its first step it does nothing. Otherwise `Ends` says how its `try` block
     * ends, in await `left`; after it come one error frame exactly when that was an exception, and `state idle`, each
     * lost only to a cancellation in its own send. The frames never leave the grammar. Whenever the run ends, what it
     * has shown is a prefix of the turn, what it has spoken was shown before, and what was heard is a first part of
     * what was spoken. The rows grow by exactly what was saved.
     */
    method Run(startCancelled: bool, store: Chat.ChatStore, u: Utterance, repeatPlease: string, b: Brain)
      returns (closed: bool, ghost ending: Flow, ghost left: nat, reply: Option<OrchEvent>, saved: Option<seq<Message>>,
               session: nat, ghost t: Trace)
      requires Unstarted()
      modifies this, store
      ensures startCancelled ==> Unstarted() && reply.None? && saved.None? && store.sessions == old(store.sessions)
      ensures !startCancelled ==>
        && Tracked() && StageOf(frames) != Wrong && (closed ==> StageOf(frames).Ended?)
        && Ends(ending, left, reply, saved, u, repeatPlease, b, t)
        && awaits == left + (if ending == Raised then 2 else 1)
        && (closed <==> Effective(world(awaits - 1)))
        && (ErrorReported(StageOf(frames)) <==> ending == Raised && Effective(world(left)))
      ensures Shows(b, t) && Audio(frames) <= Sounds(|spoken|)
      ensures StoreAfter(u, b, t, reply.Some?, ending, saved, session, old(store.sessions), old(store.rows),
                         store.sessions, store.rows)
      ensures !startCancelled && ending != Cancelled && (RecognitionFails(u.input) || u.Unclear()) ==>
        store.sessions == old(store.sessions)
    {
      hide StageOf, Visible, Audio, Responses, Shown, Streamed, IsTurn, Script, Punctual, Captioned, Sounds,
        Chat.EncodedAll, CancelledBefore, BargedBefore;
      reply, saved, session, t := None, None, 0, NO_TRACE;
      closed, ending, left := false, Go, 0;
      NothingShown();
      assert NO_TRACE.events[..0] == [];
      NoFrames();
      NoSounds();
      SilenceIsCaptioned();
      if startCancelled {
        return;
      }
      var flow;
      flow, reply, saved, session, t := Respond(store, u, repeatPlease, b);
      ending, left := flow, awaits;
      closed := CloseOut(flow);
    }

    /**
     * What the hub has been sent once the response to a turn is out, in await `at`: every subtitle and tool status
     * of the turn in order, the one response, and every sentence of the splitter's script handed to the synthesiser
     * once and in order. The full text follows only when nothing had sounded by then. The hub had not barged in when
     * the event loop ended, in await `streamed`; unless it did by `at`, it has heard all of it.
     */
    ghost predicate Replied(events: seq<OrchEvent>, done: OrchEvent, again: bool, streamed: nat, at: nat)
      reads this`frames, this`spoken
    {
      && events != [] && events[|events| - 1] == done && done.OrchDone?
      && Visible(frames) == Shown(events[..|events| - 1])
      && Responses(frames) == [done.text]
      && spoken == Script(Streamed(events)) + (if again then [done.text] else [])
      && (again ==> done.text != "" && Audio(frames) <= speech(|Script(Streamed(events))|).chunks)
      && (!again && Audio(frames) == [] ==> done.text == "")
      && streamed <= at && !BargedBefore(streamed) && HeardAll(at)
    }
  }

  lemma SpeakingIsClosable(repeating: bool)
    ensures forall started: bool :: Closable(Speaking(repeating, started))
  {
  }

  lemma AudioStep(before: seq<Pcm>, chunks: seq<Pcm>, i: nat)
    requires i < |chunks|
    ensures before + chunks[..i] + [chunks[i]] == before + chunks[..i + 1]
  {
  }

  lemma SpokenStep(before: seq<string>, sentences: seq<string>, i: nat)
    requires i < |sentences|
    ensures before + sentences[..i] + [sentences[i]] == before + sentences[..i + 1]
  {
  }

  lemma EventStep(shown: seq<OrchEvent>, event: OrchEvent)
    requires !event.OrchDone?
    ensures event.OrchStatus? ==>
      && Shown(shown + [event]) == Shown(shown) + [ToolStatus(event.tool, event.status)]
      && Streamed(shown + [event]) == Streamed(shown)
    ensures event.OrchText? ==>
      var before := Sentence.Fed(Streamed(shown));
      && Shown(shown + [event]) == Shown(shown) + [LlmDelta(event.text)]
      && Sentence.Fed(Streamed(shown + [event])) ==
         (before.0 + Sentence.Sentences(before.1 + event.text), Sentence.Rest(before.1 + event.text))
  {
    hide Sentence.Sentences, Sentence.Rest;
    assert (shown + [event])[..|shown|] == shown;
    if event.OrchText? {
      var pieces := Streamed(shown) + [event.text];
      assert pieces[..|pieces| - 1] == Streamed(shown);
    } else {
      assert Streamed(shown) + [] == Streamed(shown);
    }
  }

  lemma FlushNotEmpty(rest: string)
    ensures Sentence.FlushOf(rest).Some? ==> Sentence.FlushOf(rest).value != ""
  {
  }

  lemma SameScript(shown: seq<OrchEvent>)
    ensures var fed := Sentence.Fed(Streamed(shown));
      Script(Streamed(shown)) ==
        if Sentence.FlushOf(fed.1).Some? then fed.0 + [Sentence.FlushOf(fed.1).value] else fed.0
  {
  }

  method CallOrchestrator(system: string, history: seq<Message>, w: World, phrases: Phrases)
    returns (events: seq<OrchEvent>, end: TurnEnd, requests: seq<seq<Message>>)
    ensures IsTurn(w, phrases, events, end) && Asked(requests, system, history, w)
  {
    hide IsTurn, Log, Executed;
    var executed;
    events, end, requests, executed := RunTurn(system, history, w, phrases);
  }

  lemma NothingShown()
    ensures Shown([]) == [] && Streamed([]) == [] && Sentence.Fed([]) == ([], "")
  {
  }

  lemma OneDone(w: World, phrases: Phrases, events: seq<OrchEvent>, end: TurnEnd)
    requires IsTurn(w, phrases, events, end)
    ensures forall i :: 0 <= i < |events| - 1 ==> !events[i].OrchDone?
    ensures end.ProviderFailed? ==> forall i :: 0 <= i < |events| ==> !events[i].OrchDone?
    ensures !end.ProviderFailed? ==> events != [] && events[|events| - 1].OrchDone?
    ensures events != [] && events[|events| - 1].OrchDone? ==> Streamed(events[..|events| - 1]) == Streamed(events)
  {
    hide IsTurn, Streamed, IsRounds, Paired;
    if end.ProviderFailed? {
      FailedTurnHasNoDone(w, phrases, events, end);
    } else {
      DoneIsWellFormed(w, phrases, events, end);
    }
    if events != [] && events[|events| - 1].OrchDone? {
      LastIsNotText(events);
    }
  }

  lemma LastIsNotText(events: seq<OrchEvent>)
    requires events != [] && events[|events| - 1].OrchDone?
    ensures Streamed(events[..|events| - 1]) == Streamed(events)
  {
    var before := events[..|events| - 1];
    assert Streamed(before) + [] == Streamed(before);
  }

  /** The provider was called with the prompt, this history, and the messages of the rounds so far. */
  ghost predicate Asked(requests: seq<seq<Message>>, system: string, history: seq<Message>, w: World)
  {
    && requests != []
    && forall i :: 0 <= i < |requests| ==> requests[i] == [SystemMessage(system)] + history + Log(w, i)
  }

  lemma NoFrames()
    ensures StageOf([]) == Begun && Visible([]) == [] && Audio([]) == [] && Responses([]) == []
  {
  }

  // ---------- text conservation across the three components ----------

  /** The subtitle texts among the frames, in order. */
  function Subtitles(frames: seq<Frame>): seq<string>
  {
    if frames == [] then []
    else
      var n := |frames| - 1;
      Subtitles(frames[..n]) + if frames[n].LlmDelta? then [frames[n].text] else []
  }

  lemma {:induction false} VisibleSubtitles(frames: seq<Frame>)
    ensures Subtitles(Visible(frames)) == Subtitles(frames)
  {
    if frames != [] {
      var n := |frames| - 1;
      VisibleSubtitles(frames[..n]);
      SubtitlesSnoc(Visible(frames[..n]), frames[n]);
      assert Visible(frames[..n]) + [] == Visible(frames[..n]);
    }
  }

  lemma SubtitlesSnoc(frames: seq<Frame>, f: Frame)
    ensures Subtitles(frames + [f]) == if f.LlmDelta? then Subtitles(frames) + [f.text] else Subtitles(frames)
  {
    assert (frames + [f])[..|frames|] == frames;
  }

  lemma {:induction false} ShownSubtitles(events: seq<OrchEvent>)
    ensures Subtitles(Shown(events)) == Streamed(events)
  {
    if events != [] {
      var n := |events| - 1;
      ShownSubtitles(events[..n]);
      var before := Shown(events[..n]);
      assert before + [] == before;
      match events[n]
      case OrchText(text) => SubtitlesSnoc(before, LlmDelta(text));
      case OrchStatus(tool, status) => SubtitlesSnoc(before, ToolStatus(tool, status));
      case OrchDone(_, _, _) =>
    }
  }

  /**
   * When a turn ends normally and its response goes out, the response, the subtitles put end to end, and
   * the segments the splitter cut off together with its remainder are one and the same text; and what the
   * script has spoken are those segments, stripped, that have at least two characters.
   */
  lemma TextIsConserved(w: World, phrases: Phrases, events: seq<OrchEvent>, end: TurnEnd, frames: seq<Frame>)
    requires IsTurn(w, phrases, events, end) && end.Final?
    requires events != [] && Visible(frames) == Shown(events[..|events| - 1])
    ensures events[|events| - 1].OrchDone?
    ensures var text, pieces := events[|events| - 1].text, Streamed(events);
      && Concat(Subtitles(frames)) == text
      && Concat(Sentence.FedSegments(pieces)) + Sentence.Fed(pieces).1 == text
      && Script(pieces) ==
         Sentence.SpokenOf(Sentence.FedSegments(pieces)) + Optional(Sentence.FlushOf(Sentence.Fed(pieces).1))
  {
    hide IsTurn, Streamed, Visible, Shown, Concat, Sentence.Fed, Sentence.FedSegments, Sentence.FlushOf,
      Sentence.SpokenOf;
    ReplyIsWhatWasStreamed(w, phrases, events, end);
    LastIsNotText(events);
    VisibleSubtitles(frames);
    ShownSubtitles(events[..|events| - 1]);
    Sentence.StreamNothingLost(Streamed(events));
  }
}
