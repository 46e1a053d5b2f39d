/** What a voice pipeline may send down the hub's socket, as an automaton over frames. */
module Frames {
  import opened Orchestrator

  type Pcm = seq<bv8>

  datatype Frame =
    | SttFinal(text: string)
    | Thinking
    | Idle
    | LlmDelta(text: string)
    | ToolStatus(tool: string, status: Status)
    | TtsStart
    | Binary(pcm: Pcm)
    | TtsEnd
    | Response(text: string)
    | ErrorFrame

  /** How far the frames sent so far have got. */
  datatype Stage =
    | Begun
    | Heard
    | Streaming(sounding: bool)
    | Repeating
    | Silenced
    | Answered
    | Reported
    | Ended(reported: bool)
    | Wrong

  function Next(stage: Stage, f: Frame): Stage
  {
    match (stage, f)
    case (Begun, SttFinal(_)) => Heard
    case (Begun, Thinking) => Streaming(false)
    case (Begun, TtsStart) => Repeating
    case (Begun, Response(_)) => Answered
    case (Begun, ErrorFrame) => Reported
    case (Heard, Thinking) => Streaming(false)
    case (Streaming(_), LlmDelta(_)) => stage
    case (Streaming(_), ToolStatus(_, _)) => stage
    case (Streaming(sounding), TtsStart) => if sounding then Wrong else Streaming(true)
    case (Streaming(sounding), Binary(_)) => if sounding then stage else Wrong
    case (Streaming(sounding), TtsEnd) => if sounding then Silenced else Wrong
    case (Streaming(sounding), Response(_)) => if sounding then Wrong else Answered
    case (Streaming(_), ErrorFrame) => Reported
    case (Repeating, Binary(_)) => Repeating
    case (Repeating, TtsEnd) => Silenced
    case (Silenced, Response(_)) => Answered
    case (Answered, ErrorFrame) => Reported
    case (Wrong, _) => Wrong
    case (Reported, Idle) => Ended(true)
    case (Ended(_), Idle) => stage
    case (_, Idle) => Ended(false)
    case _ => Wrong
  }

  function StageOf(frames: seq<Frame>): Stage
  {
    if frames == [] then Begun else Next(StageOf(frames[..|frames| - 1]), frames[|frames| - 1])
  }

  function Count(frames: seq<Frame>, f: Frame): nat
  {
    if frames == [] then 0
    else Count(frames[..|frames| - 1], f) + if frames[|frames| - 1] == f then 1 else 0
  }

  predicate Answering(frames: seq<Frame>)
  {
    frames != [] && (frames[|frames| - 1].Response? || Answering(frames[..|frames| - 1]))
  }

  /** Every audio frame comes after `tts.start`; neither audio nor `tts.end` follows the response. */
  predicate Orderly(frames: seq<Frame>)
  {
    && (forall i :: 0 <= i < |frames| && frames[i].Binary? ==> Count(frames[..i], TtsStart) == 1)
    && (forall i :: 0 <= i < |frames| && (frames[i].Binary? || frames[i].TtsEnd?) ==> !Answering(frames[..i]))
  }

  /** What the stage says about the frames so far. */
  predicate Consistent(frames: seq<Frame>, stage: Stage)
  {
    var starts, ends := Count(frames, TtsStart), Count(frames, TtsEnd);
    && starts <= 1 && ends <= starts
    && Count(frames, ErrorFrame) == (if stage == Reported || stage == Ended(true) then 1 else 0)
    && (Answering(frames) ==> starts == ends)
    && match stage
       case Begun => starts == 0 && !Answering(frames)
       case Heard => starts == 0 && !Answering(frames)
       case Streaming(sounding) => starts == (if sounding then 1 else 0) && ends == 0 && !Answering(frames)
       case Repeating => starts == 1 && ends == 0 && !Answering(frames)
       case Silenced => starts == 1 && ends == 1 && !Answering(frames)
       case Answered => Answering(frames)
       case _ => true
  }

  lemma {:induction false} StageIsConsistent(frames: seq<Frame>)
    requires StageOf(frames) != Wrong
    ensures Consistent(frames, StageOf(frames))
  {
    if frames != [] {
      StageIsConsistent(frames[..|frames| - 1]);
    }
  }

  lemma {:induction false} StageIsOrderly(frames: seq<Frame>)
    requires StageOf(frames) != Wrong
    ensures Orderly(frames)
  {
    hide Answering, Count;
    if frames != [] {
      var n := |frames| - 1;
      var before := frames[..n];
      StageIsOrderly(before);
      StageIsConsistent(before);
      assert forall i :: 0 <= i < n ==> frames[..i] == before[..i];
    }
  }

  /**
   * Frames that reach the end close with `state idle`, start and end speech at most once, send audio only
   * after `tts.start`, and around a response speech that was started has ended and stays ended. An error is
   * reported once or not at all.
   */
  lemma CompleteRunIsWellFormed(frames: seq<Frame>)
    requires StageOf(frames).Ended?
    ensures frames != [] && frames[|frames| - 1] == Idle
    ensures Count(frames, TtsEnd) <= Count(frames, TtsStart) <= 1
    ensures Orderly(frames)
    ensures Answering(frames) ==> Count(frames, TtsStart) == Count(frames, TtsEnd)
    ensures Count(frames, ErrorFrame) == if StageOf(frames).reported then 1 else 0
  {
    StageIsConsistent(frames);
    StageIsOrderly(frames);
  }

  // ---------- projections ----------

  predicate IsVisible(f: Frame)
  {
    f.LlmDelta? || f.ToolStatus?
  }

  /** Subtitles and tool statuses among the frames, in order. */
  function Visible(frames: seq<Frame>): seq<Frame>
  {
    if frames == [] then []
    else
      var n := |frames| - 1;
      Visible(frames[..n]) + if IsVisible(frames[n]) then [frames[n]] else []
  }

  /** Audio among the frames, in order. */
  function Audio(frames: seq<Frame>): seq<Pcm>
  {
    if frames == [] then []
    else
      var n := |frames| - 1;
      Audio(frames[..n]) + if frames[n].Binary? then [frames[n].pcm] else []
  }

  /** Responses among the frames, in order. */
  function Responses(frames: seq<Frame>): seq<string>
  {
    if frames == [] then []
    else
      var n := |frames| - 1;
      Responses(frames[..n]) + if frames[n].Response? then [frames[n].text] else []
  }

  lemma ProjectionSnoc(frames: seq<Frame>, f: Frame)
    ensures Visible(frames + [f]) == if IsVisible(f) then Visible(frames) + [f] else Visible(frames)
    ensures Audio(frames + [f]) == if f.Binary? then Audio(frames) + [f.pcm] else Audio(frames)
    ensures Responses(frames + [f]) == if f.Response? then Responses(frames) + [f.text] else Responses(frames)
    ensures StageOf(frames + [f]) == Next(StageOf(frames), f)
  {
    assert (frames + [f])[..|frames|] == frames;
  }

  /** The frames the orchestrator's events are shown as. */
  function Shown(events: seq<OrchEvent>): seq<Frame>
  {
    if events == [] then []
    else
      var n := |events| - 1;
      Shown(events[..n]) +
      match events[n]
      case OrchText(text) => [LlmDelta(text)]
      case OrchStatus(tool, status) => [ToolStatus(tool, status)]
      case OrchDone(_, _, _) => []
  }

  /** One frame for one event: a piece of text as a subtitle, a tool's status with its name. */
  predicate Shows(f: Frame, e: OrchEvent)
  {
    if e.OrchText? then f == LlmDelta(e.text) else e.OrchStatus? && f == ToolStatus(e.tool, e.status)
  }

  /** What precedes the final event is shown one frame each, in order. */
  lemma {:induction false} ShownOneByOne(events: seq<OrchEvent>)
    requires forall i :: 0 <= i < |events| ==> !events[i].OrchDone?
    ensures |Shown(events)| == |events| && forall i :: 0 <= i < |events| ==> Shows(Shown(events)[i], events[i])
  {
    if events != [] {
      ShownOneByOne(events[..|events| - 1]);
    }
  }

  /** A frame is heard, seen or the response exactly when it is among the respective frames. */
  lemma {:induction false} Projections(frames: seq<Frame>)
    ensures forall pcm :: pcm in Audio(frames) <==> Binary(pcm) in frames
    ensures forall f :: f in Visible(frames) <==> f in frames && (f.LlmDelta? || f.ToolStatus?)
    ensures forall text :: text in Responses(frames) <==> Response(text) in frames
  {
    if frames != [] {
      var n := |frames| - 1;
      Projections(frames[..n]);
      assert frames == frames[..n] + [frames[n]];
    }
  }
}
