/**
 * One hub connection as interleaved coroutines: the receive loop and every pipeline task it has created.
 * A step runs one coroutine from one `await` to the next. All tasks read the handler's one `_cancel`
 * attribute, which each start replaces by a fresh event.
 */
module BargeIn {

  /**
   * Where a pipeline task is suspended: before the event loop; pulling the next event, with provider or tool at work
   * behind it; sending an event; after the loop; in the three awaits of speech; in `finally`.
   */
  datatype Pc =
    | Unstarted | Preparing | Pulling | Showing | Telling
    | AwaitingChunk | SendingStart | SendingBinary
    | Closing | Finished

  /**
   * `inLoop`: it speaks on behalf of an event. `sounding`: `tts.start` has been sent. `shown` and `audio` count events
   * shown and audio frames sent. `late` and `lateTools` are bookkeeping for the proofs; `SendsLate` and
   * `StartsToolLate` say what they count. `brokeOff`: it left its event loop because the event it read was set.
   */
  datatype Task = Task(pc: Pc, inLoop: bool, sounding: bool, cancelRequested: bool, shown: nat, audio: nat, late: nat,
                       lateTools: nat, brokeOff: bool)

  /** The receive loop waits for a message, or for the provider's `cancel` on behalf of a barge-in. */
  datatype Handler = Ready | Barging(thenStart: bool) | Closed

  /** `flags[0]` is the constructor's event, `flags[k + 1]` the one installed with task `k`. */
  datatype State = State(handler: Handler, tasks: seq<Task>, flags: seq<bool>)

  datatype Move =
    | Work | Enter | EventArrives | TurnEnds | Fails | Pull(startsTool: bool)
    | Speak | Finish | ChunkArrives | SynthesisEnds | Resume

  datatype Step = StartMessage | BargeMessage | HandlerResumes | Disconnect | TaskStep(k: nat, move: Move)

  const INITIAL := State(Ready, [], [false])

  /** `self._cancel.is_set()`: the newest event, whoever asks. */
  predicate CancelSet(s: State)
    requires s.flags != []
  {
    s.flags[|s.flags| - 1]
  }

  function SetCancel(s: State): State
    requires s.flags != []
  {
    s.(flags := s.flags[|s.flags| - 1 := true])
  }

  predicate Busy(s: State)
  {
    s.tasks != [] && !s.tasks[|s.tasks| - 1].pc.Finished?
  }

  function Requested(t: Task): Task
  {
    if t.pc.Finished? then t else t.(cancelRequested := true)
  }

  function CancelCurrent(s: State): State
  {
    if s.tasks == [] then s
    else s.(tasks := s.tasks[|s.tasks| - 1 := Requested(s.tasks[|s.tasks| - 1])])
  }

  function Launched(s: State): State
  {
    State(Ready, s.tasks + [Task(Unstarted, false, false, false, 0, 0, 0, 0, false)], s.flags + [false])
  }

  /** A pending cancellation is thrown in at the resumption: the task goes to `finally`, or never starts. */
  function Thrown(t: Task): Task
  {
    t.(pc := if t.pc.Unstarted? || t.pc.Closing? then Finished else Closing)
  }

  function Sounded(t: Task, own: bool): Task
  {
    t.(pc := SendingBinary, sounding := true, audio := t.audio + 1, late := if own then t.late + 1 else t.late)
  }

  /** Where speech goes back to. */
  function Spoke(t: Task): Task
  {
    t.(pc := if t.inLoop then Showing else Telling)
  }

  predicate CanMove(t: Task, move: Move)
  {
    !t.pc.Finished? &&
    (t.cancelRequested ||
     match (t.pc, move)
     case (Unstarted, Work) => true
     case (Preparing, Work) => true
     case (Preparing, Enter) => true
     case (Preparing, Speak) => true
     case (Preparing, Fails) => true
     case (Pulling, Work) => true
     case (Pulling, EventArrives) => true
     case (Pulling, TurnEnds) => true
     case (Pulling, Fails) => true
     case (Showing, Speak) => true
     case (Showing, Pull(_)) => true
     case (Telling, Work) => true
     case (Telling, Speak) => true
     case (Telling, Fails) => true
     case (Telling, Finish) => true
     case (AwaitingChunk, ChunkArrives) => true
     case (AwaitingChunk, SynthesisEnds) => true
     case (SendingStart, Resume) => true
     case (SendingBinary, Resume) => true
     case (Closing, Resume) => true
     case _ => false)
  }

  /**
   * `seen` is what the task reads as the cancel event, `own` the event installed at its creation. A tool that was
   * announced by the event just shown starts when the next one is pulled.
   */
  function Moved(t: Task, move: Move, seen: bool, own: bool): Task
    requires CanMove(t, move)
  {
    if t.cancelRequested then Thrown(t)
    else
      match t.pc
      case Unstarted => t.(pc := Preparing)
      case Preparing =>
        if move.Enter? then t.(pc := Pulling)
        else if move.Speak? then t.(pc := AwaitingChunk, inLoop := false)
        else if move.Fails? then t.(pc := Closing)
        else t
      case Pulling =>
        if move.Work? then t
        else if move.Fails? then t.(pc := Closing)
        else if seen then t.(pc := Closing, brokeOff := true)
        else if move.TurnEnds? then t.(pc := Telling)
        else t.(pc := Showing, shown := t.shown + 1)
      case Showing =>
        if move.Speak? then t.(pc := AwaitingChunk, inLoop := true)
        else t.(pc := Pulling, lateTools := if own && move.startsTool then t.lateTools + 1 else t.lateTools)
      case Telling =>
        if move.Speak? then t.(pc := AwaitingChunk, inLoop := false)
        else if move.Work? then t
        else t.(pc := Closing)
      case AwaitingChunk =>
        if move.SynthesisEnds? || seen then Spoke(t)
        else if t.sounding then Sounded(t, own)
        else t.(pc := SendingStart)
      case SendingStart => Sounded(t, own)
      case SendingBinary => t.(pc := AwaitingChunk)
      case Closing => t.(pc := Finished)
      case Finished => t
  }

  predicate Enabled(s: State, step: Step)
  {
    && |s.flags| == |s.tasks| + 1
    && match step
       case StartMessage => s.handler.Ready?
       case BargeMessage => s.handler.Ready?
       case HandlerResumes => s.handler.Barging?
       case Disconnect => s.handler.Ready?
       case TaskStep(k, move) => k < |s.tasks| && CanMove(s.tasks[k], move)
  }

  function Apply(s: State, step: Step): State
    requires Enabled(s, step)
  {
    match step
    case StartMessage => if Busy(s) then SetCancel(s).(handler := Barging(true)) else Launched(s)
    case BargeMessage => SetCancel(s).(handler := Barging(false))
    case HandlerResumes => if s.handler.thenStart then Launched(CancelCurrent(s)) else s.(handler := Ready)
    case Disconnect => CancelCurrent(s).(handler := Closed)
    case TaskStep(k, move) =>
      s.(tasks := s.tasks[k := Moved(s.tasks[k], move, CancelSet(s), s.flags[k + 1])])
  }

  // ---------- every reachable state ----------

  predicate TaskInv(t: Task, own: bool)
  {
    && t.late <= 1
    && (t.late == 1 ==> own && t.sounding)
    && (t.pc.SendingStart? ==> !t.sounding)
    && (t.brokeOff ==> own)
    && t.lateTools <= 1
    && (t.lateTools == 1 ==> own && (t.pc.Pulling? || t.pc.Closing? || t.pc.Finished?))
  }

  predicate Inv(s: State)
  {
    && |s.flags| == |s.tasks| + 1
    && (s.handler == Barging(true) ==> s.tasks != [])
    && (forall k :: 0 <= k < |s.tasks| - 1 ==> s.tasks[k].pc.Finished? || s.tasks[k].cancelRequested)
    && (forall k :: 0 <= k < |s.tasks| ==> TaskInv(s.tasks[k], s.flags[k + 1]))
  }

  lemma StepKeepsInv(s: State, step: Step)
    requires Inv(s) && Enabled(s, step)
    ensures Inv(Apply(s, step))
  {
    if step.TaskStep? {
      MoveKeepsInv(s, step.k, step.move);
    }
  }

  lemma MoveKeepsInv(s: State, k: nat, move: Move)
    requires Inv(s) && Enabled(s, TaskStep(k, move))
    ensures Inv(Apply(s, TaskStep(k, move)))
  {
    var t := s.tasks[k];
    assert TaskInv(t, s.flags[k + 1]);
    assert t.cancelRequested || k == |s.tasks| - 1;
  }

  /** The state after a schedule, when every step of it was possible. */
  function Exec(steps: seq<Step>): (r: (bool, State))
  {
    if steps == [] then (true, INITIAL)
    else
      var before := Exec(steps[..|steps| - 1]);
      var step := steps[|steps| - 1];
      if before.0 && Enabled(before.1, step) then (true, Apply(before.1, step)) else (false, before.1)
  }

  lemma {:induction false} ReachableInv(steps: seq<Step>)
    requires Exec(steps).0
    ensures Inv(Exec(steps).1)
  {
    if steps != [] {
      var n := |steps| - 1;
      ReachableInv(steps[..n]);
      StepKeepsInv(Exec(steps[..n]).1, steps[n]);
    }
  }

  /** Under every schedule, all tasks but the current one are done or about to be cancelled. */
  lemma {:induction false} OnlyTheCurrentTaskRuns(steps: seq<Step>, k: nat)
    requires Exec(steps).0 && k + 1 < |Exec(steps).1.tasks|
    ensures Exec(steps).1.tasks[k].pc.Finished? || Exec(steps).1.tasks[k].cancelRequested
  {
    ReachableInv(steps);
  }

  /** In step `i` task `k` goes from one point of its program to another, although its cancel event is set. */
  predicate MovesLate(steps: seq<Step>, i: nat, k: nat, from: Pc, to: Pc)
  {
    && i < |steps| && steps[i].TaskStep? && steps[i].k == k
    && var s, t := Exec(steps[..i]).1, Exec(steps[..i + 1]).1;
       && k < |s.tasks| < |s.flags| && |s.tasks| == |t.tasks|
       && s.flags[k + 1] && s.tasks[k].pc == from && t.tasks[k].pc == to
  }

  predicate SendsLate(steps: seq<Step>, i: nat, k: nat)
  {
    MovesLate(steps, i, k, AwaitingChunk, SendingBinary) || MovesLate(steps, i, k, SendingStart, SendingBinary)
  }

  predicate StartsToolLate(steps: seq<Step>, i: nat, k: nat)
  {
    MovesLate(steps, i, k, Showing, Pulling) && steps[i].move == Pull(true)
  }

  /** Under every schedule, a task shows no event with its cancel event set. */
  lemma NothingIsShownLate(steps: seq<Step>, i: nat, k: nat)
    requires Exec(steps).0
    ensures !MovesLate(steps, i, k, Pulling, Showing)
  {
    if i < |steps| && k < |Exec(steps[..i]).1.tasks| {
      hide Exec, Apply, Enabled, Inv;
      StepAt(steps, i);
      ReachableInv(steps[..i]);
      LateStep(Exec(steps[..i]).1, steps[i], k);
    }
  }

  /** Under every schedule, a task sends at most one audio frame once its cancel event is set. */
  lemma AtMostOneLateChunk(steps: seq<Step>, i: nat, j: nat, k: nat)
    requires Exec(steps).0 && SendsLate(steps, i, k) && SendsLate(steps, j, k)
    ensures i == j
  {
    if i < j {
      TwoAreTooMany(steps, i, j, k);
    } else if j < i {
      TwoAreTooMany(steps, j, i, k);
    }
  }

  /** Under every schedule, a task starts at most one tool once its cancel event is set. */
  lemma AtMostOneLateTool(steps: seq<Step>, i: nat, j: nat, k: nat)
    requires Exec(steps).0 && StartsToolLate(steps, i, k) && StartsToolLate(steps, j, k)
    ensures i == j
  {
    if i < j {
      TwoAreTooMany(steps, i, j, k);
    } else if j < i {
      TwoAreTooMany(steps, j, i, k);
    }
  }

  lemma TwoAreTooMany(steps: seq<Step>, i: nat, j: nat, k: nat)
    requires Exec(steps).0 && i < j < |steps|
    ensures !(SendsLate(steps, i, k) && SendsLate(steps, j, k))
    ensures !(StartsToolLate(steps, i, k) && StartsToolLate(steps, j, k))
  {
    hide Exec, Apply, Enabled, Inv;
    StepAt(steps, i);
    StepAt(steps, j);
    ReachableInv(steps[..i]);
    ReachableInv(steps[..j]);
    ReachableInv(steps[..j + 1]);
    if k < |Exec(steps[..i]).1.tasks| {
      LateStep(Exec(steps[..i]).1, steps[i], k);
      assert steps[..j][..i + 1] == steps[..i + 1];
      CountsGrow(steps[..j], i + 1, k);
      LateStep(Exec(steps[..j]).1, steps[j], k);
      Bounds(Exec(steps[..j + 1]).1, k);
    }
  }

  lemma Bounds(s: State, k: nat)
    requires Inv(s) && k < |s.tasks|
    ensures s.tasks[k].late <= 1 && s.tasks[k].lateTools <= 1
  {
    assert TaskInv(s.tasks[k], s.flags[k + 1]);
  }

  /** Every step of a schedule was possible where it was made. */
  lemma {:induction false} StepAt(steps: seq<Step>, i: nat)
    requires Exec(steps).0 && i < |steps|
    ensures Exec(steps[..i]).0 && Exec(steps[..i + 1]).0 && Enabled(Exec(steps[..i]).1, steps[i])
    ensures Exec(steps[..i + 1]).1 == Apply(Exec(steps[..i]).1, steps[i])
    decreases |steps|
  {
    hide Apply, Enabled;
    var n := |steps| - 1;
    if i < n {
      StepAt(steps[..n], i);
      assert steps[..n][..i] == steps[..i] && steps[..n][..i + 1] == steps[..i + 1];
    } else {
      assert steps[..i + 1] == steps;
    }
  }

  lemma LateStep(s: State, step: Step, k: nat)
    requires Inv(s) && Enabled(s, step) && k < |s.tasks|
    ensures k < |Apply(s, step).tasks|
    ensures var t, u := s.tasks[k], Apply(s, step).tasks[k];
      && t.late <= u.late && t.lateTools <= u.lateTools
      && (step.TaskStep? && step.k == k && s.flags[k + 1] && u.pc.SendingBinary? ==> u.late == t.late + 1)
      && (step == TaskStep(k, Pull(true)) && s.flags[k + 1] && t.pc.Showing? && u.pc.Pulling? ==>
           u.lateTools == t.lateTools + 1)
      && (step.TaskStep? && step.k == k && s.flags[k + 1] && t.pc.Pulling? ==> !u.pc.Showing?)
  {
    hide CanMove, Moved;
    if step.TaskStep? && step.k == k {
      assert TaskInv(s.tasks[k], s.flags[k + 1]);
      LateMove(s.tasks[k], step.move, CancelSet(s), s.flags[k + 1]);
    }
  }

  lemma LateMove(t: Task, move: Move, seen: bool, own: bool)
    requires CanMove(t, move) && (t.cancelRequested || t.pc.Finished? || seen == own)
    ensures var u := Moved(t, move, seen, own);
      && t.late <= u.late && t.lateTools <= u.lateTools
      && (own && u.pc.SendingBinary? ==> u.late == t.late + 1)
      && (own && move == Pull(true) && t.pc.Showing? && u.pc.Pulling? ==> u.lateTools == t.lateTools + 1)
      && (own && t.pc.Pulling? ==> !u.pc.Showing?)
  {
  }

  lemma {:induction false} CountsGrow(steps: seq<Step>, i: nat, k: nat)
    requires Exec(steps).0 && i <= |steps| && k < |Exec(steps[..i]).1.tasks|
    ensures k < |Exec(steps).1.tasks|
    ensures Exec(steps[..i]).1.tasks[k].late <= Exec(steps).1.tasks[k].late
    ensures Exec(steps[..i]).1.tasks[k].lateTools <= Exec(steps).1.tasks[k].lateTools
    decreases |steps|
  {
    hide Apply, Enabled, Inv;
    if i == |steps| {
      assert steps[..i] == steps;
    } else {
      var n := |steps| - 1;
      assert steps[..n][..i] == steps[..i];
      CountsGrow(steps[..n], i, k);
      ReachableInv(steps[..n]);
      LateStep(Exec(steps[..n]).1, steps[n], k);
    }
  }

  /** A task that acts on the shared attribute always reads the event installed at its own creation. */
  lemma TasksReadTheirOwnEvent(steps: seq<Step>, k: nat)
    requires Exec(steps).0 && k < |Exec(steps).1.tasks|
    requires !Exec(steps).1.tasks[k].pc.Finished? && !Exec(steps).1.tasks[k].cancelRequested
    ensures Inv(Exec(steps).1) && CancelSet(Exec(steps).1) == Exec(steps).1.flags[k + 1]
  {
    ReachableInv(steps);
  }

  /** Step `i` of a schedule asks to stop task `k`: a barge-in or a start, handled while `k` is the current task. */
  predicate Stops(steps: seq<Step>, i: nat, k: nat)
  {
    && i < |steps|
    && |Exec(steps[..i]).1.tasks| == k + 1
    && (steps[i].BargeMessage? || (steps[i].StartMessage? && Busy(Exec(steps[..i]).1)))
  }

  /**
   * The event of task `k` is set exactly when a barge-in or a start was handled while `k` was the current
   * task. What was handled before `k` existed, or after it was replaced, never counts.
   */
  lemma {:induction false} EventSetOnlyByItsOwnStops(steps: seq<Step>, k: nat)
    requires Exec(steps).0 && k < |Exec(steps).1.tasks|
    ensures Inv(Exec(steps).1)
    ensures Exec(steps).1.flags[k + 1] <==> exists i: nat :: Stops(steps, i, k)
  {
    hide Exec, Apply, Enabled;
    ReachableInv(steps);
    NoTasksYet();
    var n := |steps| - 1;
    var before := Exec(steps[..n]).1;
    assert steps == steps[..n] + [steps[n]];
    ExecSnoc(steps[..n], steps[n]);
    ReachableInv(steps[..n]);
    LastFlag(before, steps[n]);
    if k < |before.tasks| {
      EventSetOnlyByItsOwnStops(steps[..n], k);
      EarlierStops(steps[..n], steps, k);
      assert Exec(steps).1.flags[k + 1] <==> before.flags[k + 1] || Stops(steps, n, k);
    } else {
      NeverStoppedYet(steps, k);
    }
  }

  lemma NoTasksYet()
    ensures Exec([]) == (true, INITIAL) && |INITIAL.tasks| == 0
  {
  }

  /** What one step does to the events: those of earlier tasks stay, a new task gets a fresh one. */
  lemma LastFlag(s: State, step: Step)
    requires Inv(s) && Enabled(s, step)
    ensures var t := Apply(s, step);
      && |t.tasks| <= |s.tasks| + 1
      && (|t.tasks| > |s.tasks| ==> |t.flags| == |t.tasks| + 1 && !t.flags[|s.tasks| + 1])
      && |t.flags| >= |s.flags|
      && forall j :: 0 < j < |s.flags| ==>
        (t.flags[j] <==> s.flags[j] || (j == |s.tasks| && (step.BargeMessage? || (step.StartMessage? && Busy(s)))))
  {
  }

  lemma EarlierStops(before: seq<Step>, steps: seq<Step>, k: nat)
    requires steps != [] && before == steps[..|steps| - 1]
    ensures (exists i: nat :: Stops(steps, i, k)) <==>
      (exists i: nat :: Stops(before, i, k)) || Stops(steps, |before|, k)
  {
    hide Exec;
    forall i: nat | i < |before| ensures before[..i] == steps[..i] && before[i] == steps[i] {
    }
    assert forall i: nat :: Stops(before, i, k) <==> i < |before| && Stops(steps, i, k);
  }

  lemma NeverStoppedYet(steps: seq<Step>, k: nat)
    requires steps != [] && |Exec(steps[..|steps| - 1]).1.tasks| <= k
    ensures forall i: nat :: !Stops(steps, i, k)
  {
    hide Exec;
    var n := |steps| - 1;
    forall i: nat ensures !Stops(steps, i, k) {
      if i <= n {
        TasksOnlyGrow(steps[..n], i);
        assert steps[..n][..i] == steps[..i];
      }
    }
  }

  lemma {:induction false} TasksOnlyGrow(steps: seq<Step>, i: nat)
    requires i <= |steps|
    ensures |Exec(steps[..i]).1.tasks| <= |Exec(steps).1.tasks|
    decreases |steps|
  {
    hide Apply, Enabled;
    if i == |steps| {
      assert steps[..i] == steps;
    } else {
      var n := |steps| - 1;
      TasksOnlyGrow(steps[..n], i);
      assert steps[..n][..i] == steps[..i];
      if Enabled(Exec(steps[..n]).1, steps[n]) {
        StepKeepsTasks(Exec(steps[..n]).1, steps[n]);
      }
    }
  }

  lemma StepKeepsTasks(s: State, step: Step)
    requires Enabled(s, step)
    ensures |s.tasks| <= |Apply(s, step).tasks|
  {
  }

  /** A task breaks off only because of a barge-in or a start that was meant for it. */
  lemma BreakingOffHasACause(steps: seq<Step>, k: nat) returns (i: nat)
    requires Exec(steps).0 && k < |Exec(steps).1.tasks| && Exec(steps).1.tasks[k].brokeOff
    ensures Stops(steps, i, k)
  {
    ReachableInv(steps);
    assert TaskInv(Exec(steps).1.tasks[k], Exec(steps).1.flags[k + 1]);
    EventSetOnlyByItsOwnStops(steps, k);
    i :| Stops(steps, i, k);
  }

  /** Steps the task still needs once its cancellation is pending. */
  function Remaining(t: Task): nat
  {
    match t.pc
    case Finished => 0
    case Unstarted => 1
    case Closing => 1
    case _ => 2
  }

  /** Steps of task `k` itself. */
  function Own(steps: seq<Step>, k: nat): nat
  {
    if steps == [] then 0
    else
      var last := steps[|steps| - 1];
      Own(steps[..|steps| - 1], k) + if last.TaskStep? && last.k == k then 1 else 0
  }

  /**
   * Whatever happens after a task was asked to cancel, it sends no further audio, and two steps of its own
   * finish it.
   */
  lemma {:induction false} CancelledTasksFallSilent(steps: seq<Step>, more: seq<Step>, k: nat)
    requires Exec(steps).0 && Exec(steps + more).0
    requires k < |Exec(steps).1.tasks| && Exec(steps).1.tasks[k].cancelRequested
    ensures k < |Exec(steps + more).1.tasks|
    ensures var t, u := Exec(steps).1.tasks[k], Exec(steps + more).1.tasks[k];
      && u.cancelRequested && u.audio == t.audio
      && Remaining(u) + Own(more, k) <= (if Own(more, k) > Remaining(t) then Own(more, k) else Remaining(t))
      && (Own(more, k) >= 2 ==> u.pc.Finished?)
    decreases |more|
  {
    hide Exec, Apply, Enabled;
    if more == [] {
      assert steps + more == steps;
    } else {
      var n := |more| - 1;
      ExecSnoc(steps + more[..n], more[n]);
      assert (steps + more[..n]) + [more[n]] == steps + more;
      CancelledTasksFallSilent(steps, more[..n], k);
      CancelledStep(Exec(steps + more[..n]).1, more[n], k);
    }
  }

  lemma ExecSnoc(steps: seq<Step>, step: Step)
    ensures Exec(steps + [step]).0 ==>
      Exec(steps).0 && Enabled(Exec(steps).1, step) && Exec(steps + [step]).1 == Apply(Exec(steps).1, step)
  {
    assert (steps + [step])[..|steps|] == steps;
  }

  lemma CancelledStep(s: State, step: Step, k: nat)
    requires Enabled(s, step) && k < |s.tasks| && s.tasks[k].cancelRequested
    ensures k < |Apply(s, step).tasks|
    ensures var t, u := s.tasks[k], Apply(s, step).tasks[k];
      && u.cancelRequested && u.audio == t.audio
      && if step.TaskStep? && step.k == k then Remaining(u) == Remaining(t) - 1 else Remaining(u) == Remaining(t)
  {
  }

  // ---------- what is asked for is done ----------

  const FRESH := Task(Unstarted, false, false, false, 0, 0, 0, 0, false)

  /** A fresh task is the last one, its event unset; all earlier ones are done or about to be cancelled. */
  predicate Served(before: State, after: State)
  {
    && after.handler.Ready? && |after.tasks| == |before.tasks| + 1 && |after.flags| == |after.tasks| + 1
    && after.tasks[|before.tasks|] == FRESH && !after.flags[|after.tasks|]
    && forall k :: 0 <= k < |before.tasks| ==>
      && (after.tasks[k].pc.Finished? || after.tasks[k].cancelRequested)
      && after.tasks[k].(cancelRequested := before.tasks[k].cancelRequested) == before.tasks[k]
  }

  lemma Runs(steps: seq<Step>, step: Step)
    requires Exec(steps).0 && Enabled(Exec(steps).1, step)
    ensures Exec(steps + [step]) == (true, Apply(Exec(steps).1, step))
  {
    assert (steps + [step])[..|steps|] == steps;
  }

  /** A start that finds no task running is served at once. */
  lemma IdleStartIsServed(steps: seq<Step>)
    requires Exec(steps).0 && Exec(steps).1.handler.Ready? && !Busy(Exec(steps).1)
    ensures Exec(steps + [StartMessage]).0 && Served(Exec(steps).1, Exec(steps + [StartMessage]).1)
  {
    ReachableInv(steps);
    hide Exec;
    Runs(steps, StartMessage);
  }

  predicate OnlyTasks(steps: seq<Step>)
  {
    forall i :: 0 <= i < |steps| ==> steps[i].TaskStep?
  }

  /** While tasks move, the handler stays where it is, and neither tasks nor events come or go. */
  lemma {:induction false} HandlerWaits(steps: seq<Step>, between: seq<Step>)
    requires Exec(steps + between).0 && OnlyTasks(between)
    ensures Exec(steps).0 && Exec(steps + between).1.handler == Exec(steps).1.handler
    ensures |Exec(steps + between).1.tasks| == |Exec(steps).1.tasks|
    ensures Exec(steps + between).1.flags == Exec(steps).1.flags
    decreases |between|
  {
    hide Exec;
    if between == [] {
      assert steps + between == steps;
    } else {
      var n := |between| - 1;
      ExecSnoc(steps + between[..n], between[n]);
      assert (steps + between[..n]) + [between[n]] == steps + between;
      HandlerWaits(steps, between[..n]);
    }
  }

  /** A start that finds a task running sets that task's event, and is served whenever the handler resumes. */
  lemma BusyStartIsServed(steps: seq<Step>, between: seq<Step>)
    requires Exec(steps).0 && Exec(steps).1.handler.Ready? && Busy(Exec(steps).1)
    requires Exec(steps + [StartMessage] + between).0 && OnlyTasks(between)
    ensures var n, s := |Exec(steps).1.tasks|, Exec(steps + [StartMessage] + between).1;
      && |s.tasks| == n && |s.flags| == n + 1 && s.flags[n]
      && Exec(steps + [StartMessage] + between + [HandlerResumes]).0
      && Served(s, Exec(steps + [StartMessage] + between + [HandlerResumes]).1)
  {
    hide Exec, Apply, Served;
    var all := steps + [StartMessage] + between;
    ReachableInv(steps);
    ReachableInv(all);
    BusyStart(Exec(steps).1);
    Runs(steps, StartMessage);
    HandlerWaits(steps + [StartMessage], between);
    Runs(all, HandlerResumes);
    StartAfterwards(Exec(all).1);
  }

  lemma BusyStart(s: State)
    requires Inv(s) && s.handler.Ready? && Busy(s)
    ensures var t := Apply(s, StartMessage);
      && t.handler == Barging(true) && t.tasks == s.tasks && |t.flags| == |s.flags| && t.flags[|s.tasks|]
  {
  }

  lemma StartAfterwards(s: State)
    requires Inv(s) && s.handler == Barging(true)
    ensures Served(s, Apply(s, HandlerResumes))
  {
  }

  /** A barge-in sets the event of the newest task; then the handler is ready again, with the same tasks. */
  lemma BargeInIsServed(steps: seq<Step>, between: seq<Step>)
    requires Exec(steps).0 && Exec(steps).1.handler.Ready?
    requires Exec(steps + [BargeMessage] + between).0 && OnlyTasks(between)
    ensures var s := Exec(steps + [BargeMessage] + between).1;
      && s.flags != [] && s.flags[|s.flags| - 1]
      && Exec(steps + [BargeMessage] + between + [HandlerResumes]) == (true, s.(handler := Ready))
  {
    var all := steps + [BargeMessage] + between;
    ReachableInv(steps);
    hide Exec;
    Runs(steps, BargeMessage);
    HandlerWaits(steps + [BargeMessage], between);
    ReachableInv(all);
    Runs(all, HandlerResumes);
  }

  /** After a disconnect no task is left that is not done or about to be cancelled, and none is ever added. */
  lemma {:induction false} DisconnectStopsEverything(steps: seq<Step>, more: seq<Step>)
    requires Exec(steps).0 && Exec(steps).1.handler.Ready? && Exec(steps + [Disconnect] + more).0
    ensures var s := Exec(steps + [Disconnect] + more).1;
      && |s.tasks| == |Exec(steps).1.tasks| && s.handler.Closed?
      && forall k :: 0 <= k < |s.tasks| ==> s.tasks[k].pc.Finished? || s.tasks[k].cancelRequested
    decreases |more|
  {
    hide Exec;
    if more == [] {
      assert steps + [Disconnect] + more == steps + [Disconnect];
      ReachableInv(steps);
      ExecSnoc(steps, Disconnect);
    } else {
      var n := |more| - 1;
      assert (steps + [Disconnect] + more[..n]) + [more[n]] == steps + [Disconnect] + more;
      ExecSnoc(steps + [Disconnect] + more[..n], more[n]);
      DisconnectStopsEverything(steps, more[..n]);
    }
  }

  // ---------- a task that is left alone ----------

  /** The moves of a task while nobody stops it. */
  function Play(t: Task, moves: seq<Move>): (r: (bool, Task))
  {
    if moves == [] then (true, t)
    else
      var n := |moves| - 1;
      var before := Play(t, moves[..n]);
      if before.0 && CanMove(before.1, moves[n]) then (true, Moved(before.1, moves[n], false, false))
      else (false, before.1)
  }

  lemma {:induction false} PlayAppend(t: Task, a: seq<Move>, b: seq<Move>)
    requires Play(t, a).0 && Play(Play(t, a).1, b).0
    ensures Play(t, a + b) == Play(Play(t, a).1, b)
    decreases |b|
  {
    hide Moved, CanMove;
    if b == [] {
      assert a + b == a;
    } else {
      PlayAppend(t, a, b[..|b| - 1]);
      assert (a + b)[..|a + b| - 1] == a + b[..|b| - 1];
    }
  }

  function Total(plan: seq<nat>): nat
  {
    if plan == [] then 0 else Total(plan[..|plan| - 1]) + plan[|plan| - 1]
  }

  /** Speaking `n` chunks, the first of them after `tts.start`. */
  function Chunks(sounding: bool, n: nat): seq<Move>
  {
    if n == 0 then []
    else
      Chunks(sounding, n - 1) + if n == 1 && !sounding then [ChunkArrives, Resume, Resume] else [ChunkArrives, Resume]
  }

  /** Showing one event after another, and speaking the planned number of chunks on behalf of each. */
  function Script(plan: seq<nat>): seq<Move>
  {
    if plan == [] then []
    else
      var before := plan[..|plan| - 1];
      Script(before) + EventMoves(Total(before) > 0, plan[|plan| - 1])
  }

  function EventMoves(sounding: bool, n: nat): seq<Move>
  {
    [EventArrives, Speak] + Chunks(sounding, n) + [SynthesisEnds, Pull(false)]
  }

  lemma PlayOne(t: Task, a: Move)
    requires CanMove(t, a)
    ensures Play(t, [a]) == (true, Moved(t, a, false, false))
  {
    assert [a][..0] == [];
  }

  lemma PlayTwo(t: Task, a: Move, b: Move)
    requires CanMove(t, a) && CanMove(Moved(t, a, false, false), b)
    ensures Play(t, [a, b]) == (true, Moved(Moved(t, a, false, false), b, false, false))
  {
    PlayOne(t, a);
    assert [a, b][..1] == [a];
  }

  lemma SpeechMoves(t: Task)
    requires t.pc.AwaitingChunk? && !t.cancelRequested
    ensures CanMove(t, SynthesisEnds) && Moved(t, SynthesisEnds, false, false) == Spoke(t)
    ensures CanMove(t, ChunkArrives) && Moved(t, ChunkArrives, false, false) ==
      if t.sounding then Sounded(t, false) else t.(pc := SendingStart)
  {
  }

  lemma SendMoves(t: Task)
    requires !t.cancelRequested
    ensures t.pc.SendingStart? ==> CanMove(t, Resume) && Moved(t, Resume, false, false) == Sounded(t, false)
    ensures t.pc.SendingBinary? ==> CanMove(t, Resume) && Moved(t, Resume, false, false) == t.(pc := AwaitingChunk)
    ensures t.pc.Closing? ==> CanMove(t, Resume) && Moved(t, Resume, false, false) == t.(pc := Finished)
  {
  }

  lemma PullMoves(t: Task)
    requires t.pc.Pulling? && !t.cancelRequested
    ensures CanMove(t, EventArrives) && Moved(t, EventArrives, false, false) == t.(pc := Showing, shown := t.shown + 1)
    ensures CanMove(t, TurnEnds) && Moved(t, TurnEnds, false, false) == t.(pc := Telling)
  {
  }

  lemma ShowMoves(t: Task)
    requires t.pc.Showing? && !t.cancelRequested
    ensures CanMove(t, Speak) && Moved(t, Speak, false, false) == t.(pc := AwaitingChunk, inLoop := true)
    ensures CanMove(t, Pull(false)) && Moved(t, Pull(false), false, false) == t.(pc := Pulling)
  {
  }

  function WithChunks(t: Task, n: nat): Task
  {
    t.(audio := t.audio + n, sounding := t.sounding || n > 0)
  }

  lemma PlayChunk(t: Task)
    requires t.pc.AwaitingChunk? && !t.cancelRequested
    ensures Play(t, if t.sounding then [ChunkArrives, Resume] else [ChunkArrives, Resume, Resume]) ==
      (true, WithChunks(t, 1))
  {
    hide CanMove, Moved, Play;
    SpeechMoves(t);
    var u := Moved(t, ChunkArrives, false, false);
    SendMoves(u);
    PlayTwo(t, ChunkArrives, Resume);
    if !t.sounding {
      var v := Moved(u, Resume, false, false);
      SendMoves(v);
      PlayOne(v, Resume);
      PlayAppend(t, [ChunkArrives, Resume], [Resume]);
      assert [ChunkArrives, Resume] + [Resume] == [ChunkArrives, Resume, Resume];
    }
  }

  lemma ChunksMore(t: Task, n: nat)
    requires n > 0
    ensures Chunks(t.sounding, n) == Chunks(t.sounding, n - 1) +
      if WithChunks(t, n - 1).sounding then [ChunkArrives, Resume] else [ChunkArrives, Resume, Resume]
    ensures WithChunks(WithChunks(t, n - 1), 1) == WithChunks(t, n)
    ensures WithChunks(t, n - 1).pc == t.pc && WithChunks(t, n - 1).cancelRequested == t.cancelRequested
  {
  }

  lemma {:induction false} PlayChunks(t: Task, n: nat)
    requires t.pc.AwaitingChunk? && !t.cancelRequested
    ensures Play(t, Chunks(t.sounding, n)) == (true, WithChunks(t, n))
  {
    if n > 0 {
      hide CanMove, Moved, Play, Chunks, WithChunks;
      PlayChunks(t, n - 1);
      ChunksMore(t, n);
      var u := WithChunks(t, n - 1);
      PlayChunk(u);
      PlayAppend(t, Chunks(t.sounding, n - 1),
                 if u.sounding then [ChunkArrives, Resume] else [ChunkArrives, Resume, Resume]);
    }
  }

  function WithEvent(t: Task, n: nat): Task
  {
    t.(inLoop := true, shown := t.shown + 1, audio := t.audio + n, sounding := t.sounding || n > 0)
  }

  /** One event: shown, spoken in `n` chunks, and the next one asked for. */
  lemma PlayEvent(t: Task, n: nat)
    requires t.pc.Pulling? && !t.cancelRequested
    ensures Play(t, EventMoves(t.sounding, n)) == (true, WithEvent(t, n))
  {
    hide Play, Chunks, WithChunks, WithEvent;
    var u, v := Speaking(t), WithChunks(Speaking(t), n);
    PlayOpening(t);
    PlayChunks(u, n);
    PlayClosing(t, n);
    PlayThree(t, [EventArrives, Speak], u, Chunks(t.sounding, n), v, [SynthesisEnds, Pull(false)], WithEvent(t, n));
  }

  function Speaking(t: Task): Task
  {
    t.(pc := AwaitingChunk, inLoop := true, shown := t.shown + 1)
  }

  lemma PlayOpening(t: Task)
    requires t.pc.Pulling? && !t.cancelRequested
    ensures Play(t, [EventArrives, Speak]) == (true, Speaking(t))
  {
    hide CanMove, Moved, Play;
    PullMoves(t);
    ShowMoves(t.(pc := Showing, shown := t.shown + 1));
    PlayTwo(t, EventArrives, Speak);
  }

  lemma PlayClosing(t: Task, n: nat)
    requires t.pc.Pulling? && !t.cancelRequested
    ensures Play(WithChunks(Speaking(t), n), [SynthesisEnds, Pull(false)]) == (true, WithEvent(t, n))
  {
    hide CanMove, Moved, Play;
    var v := WithChunks(Speaking(t), n);
    SpeechMoves(v);
    ShowMoves(v.(pc := Showing));
    PlayTwo(v, SynthesisEnds, Pull(false));
  }

  lemma PlayThree(t: Task, a: seq<Move>, u: Task, b: seq<Move>, v: Task, c: seq<Move>, w: Task)
    requires Play(t, a) == (true, u) && Play(u, b) == (true, v) && Play(v, c) == (true, w)
    ensures Play(t, a + b + c) == (true, w)
  {
    hide Play;
    PlayAppend(t, a, b);
    PlayAppend(t, a + b, c);
  }

  /** The task after the events of a plan. */
  function Played(t: Task, plan: seq<nat>): Task
  {
    t.(inLoop := t.inLoop || plan != [], shown := t.shown + |plan|, audio := t.audio + Total(plan),
       sounding := t.sounding || Total(plan) > 0)
  }

  lemma {:induction false} PlayScript(t: Task, plan: seq<nat>)
    requires t.pc.Pulling? && !t.cancelRequested && !t.sounding
    ensures Play(t, Script(plan)) == (true, Played(t, plan))
  {
    if plan != [] {
      hide CanMove, Moved, Play, EventMoves, Script, Played, WithEvent, Total;
      var n := |plan| - 1;
      PlayScript(t, plan[..n]);
      PlayedMore(t, plan);
      ScriptMore(plan);
      PlayEvent(Played(t, plan[..n]), plan[n]);
      PlayAppend(t, Script(plan[..n]), EventMoves(Total(plan[..n]) > 0, plan[n]));
    } else {
      hide Moved, CanMove;
      PlayNothing(t);
    }
  }

  lemma ScriptMore(plan: seq<nat>)
    requires plan != []
    ensures var n := |plan| - 1;
      Script(plan) == Script(plan[..n]) + EventMoves(Total(plan[..n]) > 0, plan[n])
  {
    hide EventMoves, Total;
  }

  lemma PlayedMore(t: Task, plan: seq<nat>)
    requires plan != [] && t.pc.Pulling? && !t.cancelRequested && !t.sounding
    ensures var n := |plan| - 1;
      var u := Played(t, plan[..n]);
      && u.pc.Pulling? && !u.cancelRequested && (u.sounding <==> Total(plan[..n]) > 0)
      && Played(t, plan) == WithEvent(u, plan[n])
  {
  }

  lemma PlayNothing(t: Task)
    ensures Play(t, []) == (true, t)
  {
  }

  function Whole(plan: seq<nat>): seq<Move>
  {
    [Work, Enter] + Script(plan) + [TurnEnds, Finish, Resume]
  }

  lemma PlayWhole(plan: seq<nat>)
    ensures Play(FRESH, Whole(plan)) == (true, Played(FRESH, plan).(pc := Finished))
  {
    hide Play, Script, Played;
    var t := FRESH.(pc := Pulling);
    PlayBeginning();
    PlayScript(t, plan);
    PlayEnd(plan);
    PlayThree(FRESH, [Work, Enter], t, Script(plan), Played(t, plan), [TurnEnds, Finish, Resume],
              Played(FRESH, plan).(pc := Finished));
  }

  lemma PlayBeginning()
    ensures Play(FRESH, [Work, Enter]) == (true, FRESH.(pc := Pulling))
  {
    PlayTwo(FRESH, Work, Enter);
  }

  lemma PlayEnd(plan: seq<nat>)
    ensures Play(Played(FRESH.(pc := Pulling), plan), [TurnEnds, Finish, Resume]) ==
      (true, Played(FRESH, plan).(pc := Finished))
  {
    hide CanMove, Moved, Play, Total;
    var t := Played(FRESH.(pc := Pulling), plan);
    PullMoves(t);
    TellMoves(t.(pc := Telling));
    PlayTwo(t, TurnEnds, Finish);
    SendMoves(t.(pc := Closing));
    PlayOne(t.(pc := Closing), Resume);
    PlayAppend(t, [TurnEnds, Finish], [Resume]);
    assert [TurnEnds, Finish] + [Resume] == [TurnEnds, Finish, Resume];
  }

  lemma TellMoves(t: Task)
    requires t.pc.Telling? && !t.cancelRequested
    ensures CanMove(t, Finish) && Moved(t, Finish, false, false) == t.(pc := Closing)
  {
  }

  function StepsOf(k: nat, moves: seq<Move>): seq<Step>
  {
    seq(|moves|, i requires 0 <= i < |moves| => TaskStep(k, moves[i]))
  }

  /** What the current task can play, the schedule lets it play while nobody else moves. */
  lemma {:induction false} PlayIsPossible(steps: seq<Step>, k: nat, moves: seq<Move>)
    requires Exec(steps).0 && |Exec(steps).1.tasks| == k + 1 && |Exec(steps).1.flags| == k + 2
    requires !Exec(steps).1.flags[k + 1] && Play(Exec(steps).1.tasks[k], moves).0
    ensures var s, t := Exec(steps).1, Play(Exec(steps).1.tasks[k], moves).1;
      Exec(steps + StepsOf(k, moves)) == (true, s.(tasks := s.tasks[k := t]))
    decreases |moves|
  {
    hide Exec, Moved, CanMove;
    var s := Exec(steps).1;
    if moves == [] {
      assert steps + StepsOf(k, moves) == steps && s.tasks[k := s.tasks[k]] == s.tasks;
    } else {
      var n := |moves| - 1;
      PlayIsPossible(steps, k, moves[..n]);
      assert steps + StepsOf(k, moves) == (steps + StepsOf(k, moves[..n])) + [TaskStep(k, moves[n])];
      var u := Play(s.tasks[k], moves[..n]).1;
      assert s.tasks[k := u][k := Moved(u, moves[n], false, false)] == s.tasks[k := Moved(u, moves[n], false, false)];
      Runs(steps + StepsOf(k, moves[..n]), TaskStep(k, moves[n]));
    }
  }

  /**
   * A fresh task that nobody stops can show any number of events, speak any number of chunks on behalf of each, and
   * finish without breaking off.
   */
  lemma ATaskLeftAloneAnswers(steps: seq<Step>, plan: seq<nat>)
    requires Exec(steps).0 && Exec(steps).1.tasks != []
    requires var s := Exec(steps).1;
      s.tasks[|s.tasks| - 1] == FRESH && |s.flags| == |s.tasks| + 1 && !s.flags[|s.tasks|]
    ensures var s := Exec(steps).1;
      var k := |s.tasks| - 1;
      var r := Exec(steps + StepsOf(k, Whole(plan)));
      && r.0 && |r.1.tasks| == k + 1 && r.1.flags == s.flags && r.1.handler == s.handler
      && var t := r.1.tasks[k];
         && t.pc.Finished? && !t.brokeOff && !t.cancelRequested
         && t.shown == |plan| && t.audio == Total(plan)
  {
    hide Exec, Play, Whole;
    PlayWhole(plan);
    PlayIsPossible(steps, |Exec(steps).1.tasks| - 1, Whole(plan));
  }
}
