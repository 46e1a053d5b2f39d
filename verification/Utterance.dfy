/** Collecting one utterance from the hub's microphone frames. */
module Utterance {
  import opened Text

  type Bytes = seq<bv8>

  const UPLINK_AUDIO_TAG: bv8 := 0x01
  const MAX_UTTERANCE_BYTES := 16000 * 2 * 20

  /** What the hub sends, as far as the buffer is concerned. */
  datatype Inbound = Start | End | Cancel | Audio(payload: Bytes) | Unrelated

  predicate Tagged(f: Inbound)
  {
    f.Audio? && f.payload != [] && f.payload[0] == UPLINK_AUDIO_TAG
  }

  datatype Buffer = Buffer(audio: Bytes, collecting: bool)

  function Step(b: Buffer, f: Inbound): Buffer
  {
    match f
    case Start => Buffer([], true)
    case End => Buffer(if b.collecting then [] else b.audio, false)
    case Cancel => Buffer([], false)
    case Audio(payload) =>
      if !Tagged(f) || !b.collecting then b
      else if |b.audio| + |payload| > MAX_UTTERANCE_BYTES then Buffer([], false)
      else Buffer(b.audio + payload[1..], true)
    case Unrelated => b
  }

  function After(log: seq<Inbound>): Buffer
  {
    if log == [] then Buffer([], false) else Step(After(log[..|log| - 1]), log[|log| - 1])
  }

  class UtteranceBuffer {
    var audio: Bytes
    var collecting: bool

    constructor ()
      ensures Abs() == After([])
    {
      audio, collecting := [], false;
    }

    function Abs(): Buffer
      reads this
    {
      Buffer(audio, collecting)
    }

    method BeginUtterance()
      modifies this
      ensures Abs() == Step(old(Abs()), Start) && audio == [] && collecting
    {
      audio := [];
      collecting := true;
    }

    method ResetUtterance()
      modifies this
      ensures Abs() == Step(old(Abs()), Cancel) && audio == [] && !collecting
    {
      audio := [];
      collecting := false;
    }

    /** The PCM handed to a new pipeline; none when no utterance is being collected. */
    method EndUtterance() returns (pcm: Option<Bytes>)
      modifies this
      ensures Abs() == Step(old(Abs()), End)
      ensures pcm == (if old(collecting) then Some(old(audio)) else None) && !collecting
    {
      if !collecting {
        return None;
      }
      collecting := false;
      pcm := Some(audio);
      audio := [];
    }

    method HandleBytes(payload: Bytes) returns (tooLong: bool)
      modifies this
      ensures Abs() == Step(old(Abs()), Audio(payload))
      ensures tooLong <==> Tagged(Audio(payload)) && old(collecting) && !collecting
      ensures audio ==
        if payload == [] || payload[0] != 0x01 || !old(collecting) then old(audio)
        else if |old(audio)| + |payload| > 640_000 then []
        else old(audio) + payload[1..]
    {
      tooLong := false;
      if payload == [] || payload[0] != UPLINK_AUDIO_TAG || !collecting {
        return;
      }
      if |audio| + |payload| > MAX_UTTERANCE_BYTES {
        ResetUtterance();
        return true;
      }
      audio := audio + payload[1..];
    }
  }

  // ---------- the frame log ----------

  /** Payloads of the tagged frames, put end to end. */
  function Payloads(log: seq<Inbound>): Bytes
  {
    if log == [] then []
    else
      var n := |log| - 1;
      Payloads(log[..n]) + if Tagged(log[n]) then log[n].payload[1..] else []
  }

  /**
   * `log[s]` is the latest start, nothing has ended or cancelled the utterance since, every tagged frame
   * since fitted when it came, and `pcm` is their payloads.
   */
  ghost predicate Records(log: seq<Inbound>, s: nat, pcm: Bytes)
  {
    && s < |log| && log[s].Start?
    && (forall i :: s < i < |log| ==> log[i].Audio? || log[i].Unrelated?)
    && (forall i :: s < i < |log| && Tagged(log[i]) ==>
          |Payloads(log[s + 1..i])| + |log[i].payload| <= 640_000)
    && pcm == Payloads(log[s + 1..])
  }

  /** The buffer collects exactly when the log records an utterance, and then holds what it records. */
  lemma {:induction false} BufferRefinesLog(log: seq<Inbound>)
    ensures var b := After(log);
      && (b.collecting ==> exists s: nat :: Records(log, s, b.audio))
      && (forall s: nat, pcm :: Records(log, s, pcm) ==> b.collecting && b.audio == pcm)
      && (!b.collecting ==> b.audio == [])
      && |b.audio| <= 639_999
  {
    if log != [] {
      var n := |log| - 1;
      var before, b := After(log[..n]), After(log);
      BufferRefinesLog(log[..n]);
      if log[n].Start? {
        assert log[n + 1..] == [];
        assert Records(log, n, []);
      }
      forall s: nat, pcm | Records(log, s, pcm) ensures b.collecting && b.audio == pcm {
        if s < n {
          RecordsBefore(log, s, pcm);
        } else {
          assert log[s + 1..] == [];
        }
      }
      if b.collecting && !log[n].Start? {
        var s: nat :| Records(log[..n], s, before.audio);
        RecordsMore(log, s, before.audio);
      }
    }
  }

  lemma PayloadsOfTail(log: seq<Inbound>, s: nat)
    requires s + 1 < |log|
    ensures var n := |log| - 1;
      Payloads(log[s + 1..]) == Payloads(log[..n][s + 1..]) + if Tagged(log[n]) then log[n].payload[1..] else []
  {
    var n := |log| - 1;
    assert log[s + 1..][..n - (s + 1)] == log[..n][s + 1..];
  }

  lemma RecordsBefore(log: seq<Inbound>, s: nat, pcm: Bytes)
    requires Records(log, s, pcm) && s < |log| - 1
    ensures var n := |log| - 1;
      && Records(log[..n], s, Payloads(log[..n][s + 1..]))
      && (Tagged(log[n]) ==> |Payloads(log[..n][s + 1..])| + |log[n].payload| <= MAX_UTTERANCE_BYTES)
      && pcm == Payloads(log[..n][s + 1..]) + (if Tagged(log[n]) then log[n].payload[1..] else [])
  {
    var n := |log| - 1;
    PayloadsOfTail(log, s);
    assert log[s + 1..n] == log[..n][s + 1..];
    forall i | s < i < n ensures log[..n][i] == log[i] && log[..n][s + 1..i] == log[s + 1..i] {
    }
  }

  lemma RecordsMore(log: seq<Inbound>, s: nat, pcm: Bytes)
    requires log != [] && Records(log[..|log| - 1], s, pcm)
    requires var f := log[|log| - 1];
      f.Unrelated? || (f.Audio? && (Tagged(f) ==> |pcm| + |f.payload| <= MAX_UTTERANCE_BYTES))
    ensures var f := log[|log| - 1];
      Records(log, s, if Tagged(f) then pcm + f.payload[1..] else pcm)
  {
    var n := |log| - 1;
    PayloadsOfTail(log, s);
    assert pcm + [] == pcm && log[s + 1..n] == log[..n][s + 1..];
    forall i | s < i < n ensures log[..n][i] == log[i] && log[..n][s + 1..i] == log[s + 1..i] {
    }
  }
}
