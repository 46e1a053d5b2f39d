/** Timers: a table, an in-memory job store, and a process that fires, crashes and restarts. */
module Timers {
  import opened Text

  // ---------- when a timer fires ----------

  const MINUTE := 60_000_000
  const DAY := 24 * 60 * MINUTE

  /** `at` is `HH:MM` or an ISO instant; instants are microseconds of one clock. */
  datatype At = NoTime | Clock(hour: int, minute: int) | Iso(instant: int)

  function StartOfDay(t: int): int { t - t % DAY }

  function TimeOfDay(hour: int, minute: int): int { (hour * 60 + minute) * MINUTE }

  predicate ValidClock(at: At)
  {
    at.Clock? && 0 <= at.hour < 24 && 0 <= at.minute < 60
  }

  /** `now` and `later` are the two readings of the clock; `None` is the `ValueError`. */
  function ParseFiresAt(durationSec: Option<int>, at: At, now: int, later: int): Option<int>
  {
    if durationSec.Some? then Some(now + durationSec.value * 1_000_000)
    else
      match at
      case NoTime => None
      case Iso(instant) => Some(instant)
      case Clock(hour, minute) =>
        if !ValidClock(at) then None
        else
          var candidate := StartOfDay(now) + TimeOfDay(hour, minute);
          Some(if candidate <= later then candidate + DAY else candidate)
  }

  /** `t` is the first instant strictly after `now` whose time of day is the given one. */
  ghost predicate NextOccurrence(t: int, at: At, now: int)
    requires ValidClock(at)
  {
    && IsOccurrence(t, at) && now < t
    && forall u :: IsOccurrence(u, at) && now < u ==> t <= u
  }

  predicate IsOccurrence(t: int, at: At)
    requires at.Clock?
  {
    t % DAY == TimeOfDay(at.hour, at.minute)
  }

  /**
   * With two readings of the clock the result is the next occurrence exactly when the second one has not
   * already reached it; with a single reading it always is, and lies at most a day ahead.
   */
  lemma ClockTimesAreNext(at: At, now: int, later: int)
    requires ValidClock(at) && now <= later
    ensures ParseFiresAt(None, at, now, later).Some?
    ensures var t := ParseFiresAt(None, at, now, later).value;
      && (NextOccurrence(t, at, later) <==> later < StartOfDay(now) + TimeOfDay(at.hour, at.minute) + DAY)
      && (later == now ==> NextOccurrence(t, at, now) && now < t <= now + DAY)
  {
    var tod := TimeOfDay(at.hour, at.minute);
    assert 0 <= tod < DAY;
    var candidate := StartOfDay(now) + tod;
    var t := ParseFiresAt(None, at, now, later).value;
    ModShift(now, tod);
    ModShift(now + DAY, tod);
    assert StartOfDay(now + DAY) == StartOfDay(now) + DAY by { ModNext(now); }
    forall u | IsOccurrence(u, at) && later < u ensures candidate <= u {
      Spacing(u, candidate);
    }
    forall u | IsOccurrence(u, at) && candidate <= later < u ensures candidate + DAY <= u {
      Spacing(u, candidate);
    }
  }

  lemma ModShift(now: int, tod: int)
    requires 0 <= tod < DAY
    ensures (StartOfDay(now) + tod) % DAY == tod
  {
  }

  lemma ModNext(now: int)
    ensures (now + DAY) % DAY == now % DAY
  {
  }

  /** Two instants with the same time of day are a whole number of days apart. */
  lemma Spacing(u: int, c: int)
    requires u % DAY == c % DAY
    ensures u > c - DAY ==> u >= c
    ensures u > c ==> u >= c + DAY
  {
    var a, b := u / DAY, c / DAY;
    assert u - c == (a - b) * DAY;
  }

  /** Between the readings midnight may pass: then `00:00` yields an instant that is not in the future. */
  lemma MidnightCanPass()
    ensures ParseFiresAt(None, Clock(0, 0), DAY - 1, DAY) == Some(DAY)
    ensures !NextOccurrence(DAY, Clock(0, 0), DAY)
  {
  }

  /** A duration counts from now, whatever else is given; an ISO instant is taken as it is; anything else fails. */
  lemma OtherTimes(durationSec: Option<int>, at: At, now: int, later: int)
    ensures var r := ParseFiresAt(durationSec, at, now, later);
      && (r.None? <==> durationSec.None? && (at.NoTime? || (at.Clock? && !ValidClock(at))))
      && (durationSec.Some? ==> 60 * (r.value - now) == durationSec.value * MINUTE)
      && (durationSec.Some? ==> (now < r.value <==> 0 < durationSec.value))
      && (durationSec.None? && at.Iso? ==> r.value == at.instant)
  {
  }

  // ---------- the table and the job store ----------

  /**
   * `accepted` says whether the scheduler takes the cron expression or raises. `Cronless` is any recurrence that is
   * present but carries no cron expression.
   */
  datatype Recurrence = Once | Cron(expr: string, accepted: bool) | Cronless

  datatype Kind = TimerKind | AlarmKind | ReminderKind | InvalidKind

  datatype Timer = Timer(hub: nat, kind: Kind, tag: Option<string>, firesAt: int, recurrence: Recurrence)

  datatype Trigger = AtDate(runDate: int) | AtCron(cron: string)

  function TriggerOf(t: Timer): Trigger
  {
    if t.recurrence.Cron? then AtCron(t.recurrence.expr) else AtDate(t.firesAt)
  }

  predicate Overdue(t: Timer, now: int)
  {
    t.recurrence.Once? && t.firesAt <= now
  }

  predicate Refused(t: Timer)
  {
    t.recurrence.Cron? && !t.recurrence.accepted
  }

  /** The database table and the scheduler's jobs, both by timer id; ids are never reused. */
  datatype Store = Store(db: map<nat, Timer>, jobs: map<nat, Trigger>, nextId: nat)

  /** A refused cron raises before the job is added. */
  function Scheduled(s: Store, id: nat, t: Timer): Store
  {
    if Refused(t) then s else s.(jobs := s.jobs[id := TriggerOf(t)])
  }

  function Created(s: Store, t: Timer): Store
  {
    Scheduled(s.(db := s.db[s.nextId := t], nextId := s.nextId + 1), s.nextId, t)
  }

  function Cancelled(s: Store, id: nat): Store
  {
    s.(db := s.db - {id}, jobs := s.jobs - {id})
  }

  /** One row of the restart loop: an overdue one-shot is dropped, anything else gets its job back. */
  function Restored(s: Store, id: nat, t: Timer, now: int): Store
  {
    if Overdue(t, now) then s.(db := s.db - {id}) else Scheduled(s, id, t)
  }

  datatype Creation = UnknownKind | Stored(id: nat) | StoredButRaised(id: nat)

  class TimerService {
    var db: map<nat, Timer>
    var jobs: map<nat, Trigger>
    var nextId: nat

    constructor ()
      ensures Abs() == Store(map[], map[], 0)
    {
      db, jobs, nextId := map[], map[], 0;
    }

    function Abs(): Store
      reads this
    {
      Store(db, jobs, nextId)
    }

    /** `replace_existing=True`: one job per timer. */
    method Schedule(id: nat, t: Timer) returns (raised: bool)
      modifies this`jobs
      ensures Abs() == Scheduled(old(Abs()), id, t)
      ensures raised <==> t.recurrence.Cron? && !t.recurrence.accepted
      ensures jobs == if raised then old(jobs) else old(jobs)[id := TriggerOf(t)]
    {
      var trigger: Trigger;
      if t.recurrence.Cron? {
        if !t.recurrence.accepted {
          return true;
        }
        trigger := AtCron(t.recurrence.expr);
      } else {
        trigger := AtDate(t.firesAt);
      }
      jobs := jobs[id := trigger];
      raised := false;
    }

    method Unschedule(id: nat)
      modifies this`jobs
      ensures jobs == old(jobs) - {id}
    {
      if id in jobs {
        jobs := jobs - {id};
      } else {
        assert jobs - {id} == jobs;
      }
    }

    /** The row is committed before the job is added, so a refused cron still leaves it stored. */
    method CreateTimer(t: Timer) returns (result: Creation)
      modifies this
      ensures result.UnknownKind? <==> t.kind.InvalidKind?
      ensures result.UnknownKind? ==> Abs() == old(Abs())
      ensures !result.UnknownKind? ==> result.id == old(nextId) && Abs() == Created(old(Abs()), t)
      ensures !result.UnknownKind? ==>
        && db == old(db)[result.id := t] && nextId == result.id + 1
        && (result.StoredButRaised? <==> t.recurrence.Cron? && !t.recurrence.accepted)
        && jobs == if result.StoredButRaised? then old(jobs) else old(jobs)[result.id := TriggerOf(t)]
    {
      if t.kind.InvalidKind? {
        return UnknownKind;
      }
      var id := nextId;
      db := db[id := t];
      nextId := nextId + 1;
      var raised := Schedule(id, t);
      result := if raised then StoredButRaised(id) else Stored(id);
    }

    /**
     * By id whatever the hub, else by label (`tag`) within the hub; `None` is the `NotFoundError`. `row` stands for
     * whichever row the database returns for the label.
     */
    method CancelTimer(hub: nat, timerId: Option<nat>, tag: Option<string>, row: nat) returns (cancelled: Option<nat>)
      requires timerId.None? && tag.Some? && (exists i :: i in db && HasLabel(db[i], hub, tag.value)) ==>
        row in db && HasLabel(db[row], hub, tag.value)
      modifies this
      ensures cancelled.Some? ==> cancelled.value in old(db) && Abs() == Cancelled(old(Abs()), cancelled.value)
      ensures cancelled.Some? ==> db == old(db) - {cancelled.value} && jobs == old(jobs) - {cancelled.value}
      ensures cancelled.None? ==> Abs() == old(Abs())
      ensures timerId.Some? ==> cancelled == (if timerId.value in old(db) then timerId else None)
      ensures timerId.None? ==>
        (cancelled.Some? <==>
          tag.Some? && tag.value != "" && exists i :: i in old(db) && HasLabel(old(db)[i], hub, tag.value))
      ensures timerId.None? && cancelled.Some? ==> HasLabel(old(db)[cancelled.value], hub, tag.value)
    {
      cancelled := None;
      if timerId.Some? {
        if timerId.value in db {
          cancelled := timerId;
        }
      } else if tag.Some? && tag.value != "" {
        if exists i :: i in db && HasLabel(db[i], hub, tag.value) {
          cancelled := Some(row);
        }
      }
      if cancelled.None? {
        return;
      }
      Unschedule(cancelled.value);
      db := db - {cancelled.value};
    }

    /**
     * `order` is the query's result, `readings` the clock as each row is looked at. The first refused cron ends the
     * loop; `done` rows have been dealt with before it.
     */
    method RescheduleAll(order: seq<nat>, readings: seq<int>) returns (done: nat)
      requires |order| == |readings| && forall id :: id in order ==> id in db
      modifies this
      ensures done <= |order| && forall i :: 0 <= i < done ==> !Refused(old(db)[order[i]])
      ensures done < |order| ==> Refused(old(db)[order[done]])
      ensures Abs() == RestoredRows(old(Abs()), old(db), order, readings, done)
    {
      var rows := db;
      for i := 0 to |order|
        invariant Abs() == RestoredRows(old(Abs()), rows, order, readings, i)
        invariant forall j :: 0 <= j < i ==> !Refused(rows[order[j]])
      {
        var id := order[i];
        if rows[id].recurrence.Once? && rows[id].firesAt <= readings[i] {
          db := db - {id};
        } else {
          var raised := Schedule(id, rows[id]);
          if raised {
            return i;
          }
        }
      }
      done := |order|;
    }
  }

  /** The stores after the first `n` rows of the restart loop. */
  function RestoredRows(s: Store, rows: map<nat, Timer>, order: seq<nat>, readings: seq<int>, n: nat): Store
    requires n <= |order| == |readings| && forall id :: id in order ==> id in rows
  {
    if n == 0 then s
    else Restored(RestoredRows(s, rows, order, readings, n - 1), order[n - 1], rows[order[n - 1]], readings[n - 1])
  }

  /**
   * Of the rows a restart has dealt with, exactly the overdue one-shots are gone and every other one has the job it
   * determines; the other rows are still stored and have none.
   */
  lemma RestartRestores(db: map<nat, Timer>, nextId: nat, order: seq<nat>, readings: seq<int>, n: nat)
    requires n <= |order| == |readings|
    requires forall id :: id in order <==> id in db
    requires forall i, j :: 0 <= i < j < |order| ==> order[i] != order[j]
    requires forall i :: 0 <= i < n ==> !Refused(db[order[i]])
    ensures var r := RestoredRows(Store(db, map[], nextId), db, order, readings, n);
      && (forall i :: 0 <= i < n ==>
           && (order[i] in r.db <==> !(db[order[i]].recurrence.Once? && db[order[i]].firesAt <= readings[i]))
           && (order[i] in r.db <==> order[i] in r.jobs))
      && (forall i :: n <= i < |order| ==> order[i] in r.db && order[i] !in r.jobs)
      && (forall id :: id in r.db ==> id in db && r.db[id] == db[id])
      && (forall id :: id in r.jobs ==> id in r.db && r.jobs[id] == TriggerOf(r.db[id]))
      && r.nextId == nextId
  {
    hide RestoredRows, TriggerOf, Overdue, RowRestored, Refused;
    var s := Store(db, map[], nextId);
    var r := RestoredRows(s, db, order, readings, n);
    RestoreOfRow(s, order, readings, n, 0);
    forall id: nat
      ensures id in r.db ==> id in db && r.db[id] == db[id]
      ensures id in r.jobs ==> id in r.db && r.jobs[id] == TriggerOf(r.db[id])
    {
      RestoreOfRow(s, order, readings, n, id);
      RowsAtEnd(r, db, order, readings, n, id);
    }
    forall i | 0 <= i < |order|
      ensures i < n ==>
        (order[i] in r.db <==> !(db[order[i]].recurrence.Once? && db[order[i]].firesAt <= readings[i]))
      ensures i < n ==> (order[i] in r.db <==> order[i] in r.jobs)
      ensures i >= n ==> order[i] in r.db && order[i] !in r.jobs
    {
      RestoreOfRow(s, order, readings, n, order[i]);
      RowAt(r, db, order, readings, n, i);
      OverdueIs(db[order[i]], if i < n then readings[i] else 0);
    }
  }

  lemma OverdueIs(t: Timer, now: int)
    ensures Overdue(t, now) <==> t.recurrence.Once? && t.firesAt <= now
    ensures Refused(t) <==> t.recurrence.Cron? && !t.recurrence.accepted
  {
  }

  /** What the first `n` rows of the loop leave of the timer `id`. */
  predicate RowRestored(r: Store, rows: map<nat, Timer>, order: seq<nat>, readings: seq<int>, n: nat, id: nat)
    requires n <= |order| == |readings| && forall x :: x in order ==> x in rows
  {
    && (id in r.db ==> id in rows && r.db[id] == rows[id])
    && (id in r.jobs ==> id in r.db && r.jobs[id] == TriggerOf(rows[id]))
    && ((forall i :: 0 <= i < n ==> order[i] != id) ==> (id in r.db <==> id in rows) && id !in r.jobs)
    && (forall i :: 0 <= i < n && order[i] == id ==>
      && (id in r.db <==> !Overdue(rows[id], readings[i]))
      && (id in r.jobs <==> id in r.db))
  }

  lemma RowsAtEnd(r: Store, rows: map<nat, Timer>, order: seq<nat>, readings: seq<int>, n: nat, id: nat)
    requires n <= |order| == |readings| && forall x :: x in order ==> x in rows
    requires RowRestored(r, rows, order, readings, n, id)
    ensures id in r.db ==> id in rows && r.db[id] == rows[id]
    ensures id in r.jobs ==> id in r.db && r.jobs[id] == TriggerOf(r.db[id])
  {
    hide TriggerOf, Overdue;
  }

  lemma RowAt(r: Store, rows: map<nat, Timer>, order: seq<nat>, readings: seq<int>, n: nat, i: nat)
    requires n <= |order| == |readings| && i < |order| && forall x :: x in order ==> x in rows
    requires forall j, k :: 0 <= j < k < |order| ==> order[j] != order[k]
    requires RowRestored(r, rows, order, readings, n, order[i])
    ensures i < n ==> (order[i] in r.db <==> !Overdue(rows[order[i]], readings[i]))
    ensures i < n ==> (order[i] in r.db <==> order[i] in r.jobs)
    ensures i >= n ==> order[i] in r.db && order[i] !in r.jobs
  {
    hide TriggerOf, Overdue;
  }

  lemma {:induction false} RestoreOfRow(s: Store, order: seq<nat>, readings: seq<int>, n: nat, id: nat)
    requires n <= |order| == |readings| && (forall x :: x in order ==> x in s.db) && s.jobs == map[]
    requires forall i, j :: 0 <= i < j < |order| ==> order[i] != order[j]
    requires forall i :: 0 <= i < n ==> !Refused(s.db[order[i]])
    ensures RowRestored(RestoredRows(s, s.db, order, readings, n), s.db, order, readings, n, id)
    ensures RestoredRows(s, s.db, order, readings, n).nextId == s.nextId
  {
    hide TriggerOf, Overdue, Refused;
    if n > 0 {
      RestoreOfRow(s, order, readings, n - 1, id);
    }
  }

  predicate HasLabel(t: Timer, hub: nat, tag: string)
  {
    t.hub == hub && t.tag == Some(tag)
  }

  // ---------- every run: create, cancel, fire, crash, restart ----------

  /** A run of `_fire` between two awaits: started by the scheduler, row loaded, push attempted. */
  datatype Stage = Started | Loaded | Pushed

  datatype Firing = Firing(id: nat, stage: Stage)

  /**
   * `created` remembers every timer ever stored, `pending` the rows a restart still has to look at, and `pushes`
   * every attempt to push `timer.fired`. `jobless` is bookkeeping for the proofs; `LosesJob` says what it means.
   */
  datatype State = State(store: Store, now: int, created: map<nat, Timer>, inFlight: multiset<Firing>,
                         pending: seq<nat>, jobless: set<nat>, pushes: seq<nat>)

  datatype Step =
    | Create(timer: Timer)
    | Cancel(id: nat)
    | Tick(to: int)
    | JobRuns(id: nat)
    | Load(id: nat)
    | Push(id: nat)
    | Finish(id: nat)
    | Crash(order: seq<nat>)
    | RestoreRow
    | RestoreFails

  const INITIAL := State(Store(map[], map[], 0), 0, map[], multiset{}, [], {}, [])

  /**
   * Requests are served only once the restart loop is over, or abandoned because of an exception, which a refused
   * cron makes sure of; a date job runs no earlier than its date.
   */
  predicate Enabled(s: State, step: Step)
  {
    match step
    case Create(t) => s.pending == [] && !t.kind.InvalidKind?
    case Cancel(id) => s.pending == [] && id in s.store.db
    case Tick(to) => s.now <= to
    case JobRuns(id) => id in s.store.jobs && (s.store.jobs[id].AtDate? ==> s.store.jobs[id].runDate <= s.now)
    case Load(id) => Firing(id, Started) in s.inFlight
    case Push(id) => Firing(id, Loaded) in s.inFlight
    case Finish(id) => Firing(id, Pushed) in s.inFlight
    case Crash(order) =>
      (set id | id in order) == s.store.db.Keys && forall i, j :: 0 <= i < j < |order| ==> order[i] != order[j]
    case RestoreRow => s.pending != [] && s.pending[0] in s.created && !Refused(s.created[s.pending[0]])
    case RestoreFails => s.pending != []
  }

  function Advance(s: State, id: nat, from: Stage, to: seq<Stage>): State
  {
    var rest := s.inFlight - multiset{Firing(id, from)};
    s.(inFlight := if to == [] then rest else rest + multiset{Firing(id, to[0])})
  }

  function Apply(s: State, step: Step): State
    requires Enabled(s, step)
  {
    match step
    case Create(t) =>
      s.(store := Created(s.store, t), created := s.created[s.store.nextId := t],
         jobless := if Refused(t) then s.jobless + {s.store.nextId} else s.jobless)
    case Cancel(id) => s.(store := Cancelled(s.store, id))
    case Tick(to) => s.(now := to)
    case JobRuns(id) =>
      // the scheduler drops a date job when it submits it; a cron job stays
      var dated := s.store.jobs[id].AtDate?;
      s.(store := if dated then s.store.(jobs := s.store.jobs - {id}) else s.store,
         inFlight := s.inFlight + multiset{Firing(id, Started)},
         jobless := if dated && id in s.store.db && s.store.db[id].recurrence.Cronless? then s.jobless + {id}
                    else s.jobless)
    case Load(id) => Advance(s, id, Started, if id in s.store.db then [Loaded] else [])
    case Push(id) => Advance(s, id, Loaded, [Pushed]).(pushes := s.pushes + [id])
    case Finish(id) =>
      var t := Advance(s, id, Pushed, []);
      if id in s.created && s.created[id].recurrence.Once? then t.(store := t.store.(db := t.store.db - {id})) else t
    case Crash(order) =>
      s.(store := s.store.(jobs := map[]), inFlight := multiset{}, pending := order, jobless := {})
    case RestoreRow =>
      var id := s.pending[0];
      s.(store := Restored(s.store, id, s.created[id], s.now), pending := s.pending[1..])
    case RestoreFails => s.(pending := [], jobless := s.jobless + set id | id in s.pending)
  }

  function Exec(steps: seq<Step>): (r: (bool, State))
  {
    if steps == [] then (true, INITIAL)
    else
      var before := Exec(steps[..|steps| - 1]);
      var step := steps[|steps| - 1];
      if before.0 && Enabled(before.1, step) then (true, Apply(before.1, step)) else (false, before.1)
  }

  function Pushes(pushes: seq<nat>, id: nat): nat
  {
    if pushes == [] then 0
    else Pushes(pushes[..|pushes| - 1], id) + if pushes[|pushes| - 1] == id then 1 else 0
  }

  /** Runs of `_fire` for `id` that have not attempted their push yet. */
  function Armed(s: State, id: nat): nat
  {
    s.inFlight[Firing(id, Started)] + s.inFlight[Firing(id, Loaded)]
  }

  function Token(s: State, id: nat): nat
  {
    if id in s.store.jobs then 1 else 0
  }

  predicate InFlight(s: State, id: nat)
  {
    Firing(id, Started) in s.inFlight || Firing(id, Loaded) in s.inFlight || Firing(id, Pushed) in s.inFlight
  }

  /** The table is part of what was ever created; a restart looks at each stored row once, before any job of it. */
  ghost predicate Shape(s: State)
  {
    && (forall id :: id in s.store.db ==> id in s.created && s.created[id] == s.store.db[id])
    && (forall id :: id in s.created ==> id < s.store.nextId)
    && (forall id :: id in s.store.jobs ==> id in s.store.db && s.store.jobs[id] == TriggerOf(s.store.db[id]))
    && (forall id, stage :: Firing(id, stage) in s.inFlight ==> id in s.created)
    && (forall id :: id in s.pending ==> id in s.store.db && id !in s.store.jobs && !InFlight(s, id))
    && (forall id :: id in s.pending ==> id !in s.jobless)
    && (forall i, j :: 0 <= i < j < |s.pending| ==> s.pending[i] != s.pending[j])
  }

  /** A one-shot has one right to be pushed: a job, a run under way, or a push already attempted. */
  predicate OneShot(s: State, id: nat)
  {
    id in s.created && s.created[id].recurrence.Once? ==>
      && Pushes(s.pushes, id) + Armed(s, id) + Token(s, id) <= 1
      && (Pushes(s.pushes, id) + Armed(s, id) > 0 ==> s.created[id].firesAt <= s.now)
      && (Firing(id, Pushed) in s.inFlight ==> Pushes(s.pushes, id) == 1)
  }

  /** Every stored row has a job, a run under way, or a restart still to come, unless it has lost its job. */
  predicate Covered(s: State, id: nat)
  {
    id in s.store.db ==>
      || id in s.store.jobs
      || id in s.pending
      || id in s.jobless
      || (s.store.db[id].recurrence.Once? && InFlight(s, id))
  }

  predicate JoblessHasNone(s: State, id: nat)
  {
    id in s.jobless ==> id !in s.store.jobs
  }

  predicate TimerInv(s: State, id: nat)
  {
    && OneShot(s, id)
    && Covered(s, id)
    && JoblessHasNone(s, id)
    && (id !in s.created ==> Pushes(s.pushes, id) == 0 && id !in s.jobless)
  }

  ghost predicate Inv(s: State)
  {
    Shape(s) && forall id: nat :: TimerInv(s, id)
  }

  lemma PushesSnoc(pushes: seq<nat>, id: nat)
    ensures forall i :: Pushes(pushes + [id], i) == Pushes(pushes, i) + if i == id then 1 else 0
  {
    assert (pushes + [id])[..|pushes|] == pushes;
  }

  predicate IsRequest(step: Step)
  {
    step.Create? || step.Cancel? || step.Tick?
  }

  lemma RequestKeepsInv(s: State, step: Step, id: nat)
    requires Inv(s) && Enabled(s, step) && IsRequest(step)
    ensures Shape(Apply(s, step)) && TimerInv(Apply(s, step), id)
  {
    assert TimerInv(s, id);
  }

  lemma JobKeepsInv(s: State, job: nat, id: nat)
    requires Inv(s) && Enabled(s, JobRuns(job))
    ensures Shape(Apply(s, JobRuns(job))) && TimerInv(Apply(s, JobRuns(job)), id)
  {
    assert TimerInv(s, id);
  }

  lemma LoadKeepsShape(s: State, loaded: nat)
    requires Shape(s) && Enabled(s, Load(loaded))
    ensures Shape(Apply(s, Load(loaded)))
  {
    var t := Apply(s, Load(loaded));
    assert forall f :: f in t.inFlight ==> f in s.inFlight || f == Firing(loaded, Loaded);
    assert Firing(loaded, Started) in s.inFlight;
  }

  lemma PushKeepsShape(s: State, pushed: nat)
    requires Shape(s) && Enabled(s, Push(pushed))
    ensures Shape(Apply(s, Push(pushed)))
  {
    var t := Apply(s, Push(pushed));
    assert forall f :: f in t.inFlight ==> f in s.inFlight || f == Firing(pushed, Pushed);
    assert Firing(pushed, Loaded) in s.inFlight;
  }

  lemma FinishKeepsShape(s: State, done: nat)
    requires Inv(s) && Enabled(s, Finish(done))
    ensures Shape(Apply(s, Finish(done)))
  {
    assert TimerInv(s, done);
    var t := Apply(s, Finish(done));
    assert forall f :: f in t.inFlight ==> f in s.inFlight;
    assert Firing(done, Pushed) in s.inFlight;
  }

  lemma LoadKeepsTimer(s: State, loaded: nat, id: nat)
    requires Shape(s) && TimerInv(s, id) && Enabled(s, Load(loaded))
    ensures TimerInv(Apply(s, Load(loaded)), id)
  {
  }

  lemma PushKeepsTimer(s: State, pushed: nat, id: nat)
    requires Shape(s) && TimerInv(s, id) && Enabled(s, Push(pushed))
    ensures TimerInv(Apply(s, Push(pushed)), id)
  {
    PushesSnoc(s.pushes, pushed);
    assert Firing(pushed, Loaded) in s.inFlight;
  }

  lemma FinishKeepsTimer(s: State, done: nat, id: nat)
    requires Shape(s) && TimerInv(s, id) && Enabled(s, Finish(done))
    ensures TimerInv(Apply(s, Finish(done)), id)
  {
  }

  lemma CrashKeepsInv(s: State, order: seq<nat>, id: nat)
    requires Inv(s) && Enabled(s, Crash(order))
    ensures Shape(Apply(s, Crash(order))) && TimerInv(Apply(s, Crash(order)), id)
  {
    assert TimerInv(s, id);
  }

  lemma RestoreKeepsInv(s: State, id: nat)
    requires Inv(s) && Enabled(s, RestoreRow)
    ensures Shape(Apply(s, RestoreRow)) && TimerInv(Apply(s, RestoreRow), id)
  {
    assert TimerInv(s, id);
    assert forall x :: x in s.pending <==> x == s.pending[0] || x in s.pending[1..];
  }

  lemma FailureKeepsInv(s: State, id: nat)
    requires Inv(s) && Enabled(s, RestoreFails)
    ensures Shape(Apply(s, RestoreFails)) && TimerInv(Apply(s, RestoreFails), id)
  {
    assert TimerInv(s, id);
  }

  lemma StepKeepsShape(s: State, step: Step)
    requires Inv(s) && Enabled(s, step)
    ensures Shape(Apply(s, step))
  {
    hide Shape, Apply, Enabled, TimerInv;
    match step
    case Create(_) => RequestKeepsInv(s, step, 0);
    case Cancel(_) => RequestKeepsInv(s, step, 0);
    case Tick(_) => RequestKeepsInv(s, step, 0);
    case JobRuns(job) => JobKeepsInv(s, job, 0);
    case Load(loaded) => LoadKeepsShape(s, loaded);
    case Push(pushed) => PushKeepsShape(s, pushed);
    case Finish(done) => FinishKeepsShape(s, done);
    case Crash(order) => CrashKeepsInv(s, order, 0);
    case RestoreRow => RestoreKeepsInv(s, 0);
    case RestoreFails => FailureKeepsInv(s, 0);
  }

  lemma StepKeepsTimer(s: State, step: Step, id: nat)
    requires Inv(s) && Enabled(s, step)
    ensures TimerInv(Apply(s, step), id)
  {
    hide Shape, Apply, Enabled, TimerInv;
    match step
    case Create(_) => RequestKeepsInv(s, step, id);
    case Cancel(_) => RequestKeepsInv(s, step, id);
    case Tick(_) => RequestKeepsInv(s, step, id);
    case JobRuns(job) => JobKeepsInv(s, job, id);
    case Load(loaded) => LoadKeepsTimer(s, loaded, id);
    case Push(pushed) => PushKeepsTimer(s, pushed, id);
    case Finish(done) => FinishKeepsTimer(s, done, id);
    case Crash(order) => CrashKeepsInv(s, order, id);
    case RestoreRow => RestoreKeepsInv(s, id);
    case RestoreFails => FailureKeepsInv(s, id);
  }

  lemma StepKeepsInv(s: State, step: Step)
    requires Inv(s) && Enabled(s, step)
    ensures Inv(Apply(s, step))
  {
    hide Shape, Apply, Enabled, TimerInv;
    StepKeepsShape(s, step);
    forall id: nat ensures TimerInv(Apply(s, step), id) {
      StepKeepsTimer(s, step, id);
    }
  }

  lemma {:induction false} ReachableInv(steps: seq<Step>)
    requires Exec(steps).0
    ensures Inv(Exec(steps).1)
  {
    if steps != [] {
      var n := |steps| - 1;
      ReachableInv(steps[..n]);
      StepKeepsInv(Exec(steps[..n]).1, steps[n]);
    }
  }

  /** In every run, crashes and restarts included, a one-shot timer is pushed at most once, and not before its time. */
  lemma PushedAtMostOnce(steps: seq<Step>, id: nat)
    requires Exec(steps).0
    requires id in Exec(steps).1.created && Exec(steps).1.created[id].recurrence.Once?
    ensures Pushes(Exec(steps).1.pushes, id) <= 1
    ensures Pushes(Exec(steps).1.pushes, id) == 1 ==> Exec(steps).1.created[id].firesAt <= Exec(steps).1.now
  {
    ReachableInv(steps);
    assert TimerInv(Exec(steps).1, id);
  }

  /**
   * In every run, crashes and restarts included, what was created and never cancelled is still stored: a one-shot at
   * least until it is due, anything else for good.
   */
  lemma {:induction false} PendingTimersAreKept(steps: seq<Step>, id: nat)
    requires Exec(steps).0 && id in Exec(steps).1.created
    requires Exec(steps).1.created[id].recurrence.Once? ==> Exec(steps).1.now < Exec(steps).1.created[id].firesAt
    requires forall i :: 0 <= i < |steps| ==> steps[i] != Cancel(id)
    ensures id in Exec(steps).1.store.db && Exec(steps).1.store.db[id] == Exec(steps).1.created[id]
  {
    hide Apply, Enabled, Inv;
    if steps == [] {
      Empty();
    } else {
      var n := |steps| - 1;
      LastStep(steps);
      ReachableInv(steps[..n]);
      var before := Exec(steps[..n]).1;
      StillWaiting(before, steps[n], id);
      if id in before.created {
        PendingTimersAreKept(steps[..n], id);
      }
    }
  }

  /** What one step does to a timer that is not due. */
  lemma StillWaiting(s: State, step: Step, id: nat)
    requires Inv(s) && Enabled(s, step) && step != Cancel(id)
    ensures var t := Apply(s, step);
      id in t.created && (t.created[id].recurrence.Once? ==> t.now < t.created[id].firesAt) ==>
        && (id in s.created ==> s.created[id] == t.created[id])
        && (id in s.created && s.created[id].recurrence.Once? ==> s.now < s.created[id].firesAt)
        && (id in s.created && id in s.store.db ==> id in t.store.db && t.store.db[id] == s.store.db[id])
        && (id !in s.created ==> id in t.store.db && t.store.db[id] == t.created[id])
  {
    assert TimerInv(s, id);
    hide Inv, TimerInv, Pushes, Armed;
  }

  /** The steps from the moment a job runs to the end of its firing. */
  function Firings(id: nat): seq<Step> { [JobRuns(id), Load(id), Push(id), Finish(id)] }

  /**
   * Whenever a stored timer has a job that is due, the job can run, and then the timer is pushed; a one-shot is gone
   * afterwards, a timer with a cron is as it was.
   */
  lemma DueTimersFire(steps: seq<Step>, id: nat)
    requires Exec(steps).0 && id in Exec(steps).1.store.db && id in Exec(steps).1.store.jobs
    requires var t := Exec(steps).1.store.db[id];
      t.recurrence.Cron? || t.firesAt <= Exec(steps).1.now
    ensures var s, r := Exec(steps).1, Exec(steps + Firings(id));
      && r.0 && r.1.pushes == s.pushes + [id] && r.1.inFlight == s.inFlight && r.1.pending == s.pending
      && (s.store.db[id].recurrence.Once? ==> r.1.store == Cancelled(s.store, id))
      && (s.store.db[id].recurrence.Cron? ==> r.1.store == s.store)
  {
    ReachableInv(steps);
    hide Exec, Inv, Apply, Enabled, TriggerOf, FiringAt, Firings;
    var s := Exec(steps).1;
    var one := steps + [JobRuns(id)];
    var two := one + [Load(id)];
    var three := two + [Push(id)];
    FourSteps(steps, id);
    JobStarts(s, id);
    Runs(steps, JobRuns(id), one);
    FiringLoads(s, Exec(one).1, id);
    Runs(one, Load(id), two);
    FiringPushes(s, Exec(two).1, id);
    Runs(two, Push(id), three);
    FiringEnds(s, Exec(three).1, id);
    Runs(three, Finish(id), steps + Firings(id));
  }

  lemma FourSteps(steps: seq<Step>, id: nat)
    ensures steps + Firings(id) == steps + [JobRuns(id)] + [Load(id)] + [Push(id)] + [Finish(id)]
  {
  }

  /** A firing of `id`, begun in state `s`, has come to the given point, and nothing else has happened. */
  ghost predicate FiringAt(s: State, t: State, id: nat, stage: Stage)
    requires id in s.store.db
  {
    && t.store.db == s.store.db && t.store.nextId == s.store.nextId && t.created == s.created && t.pending == s.pending
    && t.store.jobs == (if s.store.db[id].recurrence.Cron? then s.store.jobs else s.store.jobs - {id})
    && t.inFlight == s.inFlight + multiset{Firing(id, stage)}
    && t.pushes == if stage.Pushed? then s.pushes + [id] else s.pushes
  }

  lemma JobStarts(s: State, id: nat)
    requires Inv(s) && id in s.store.db && id in s.store.jobs
    requires s.store.db[id].recurrence.Cron? || s.store.db[id].firesAt <= s.now
    ensures Enabled(s, JobRuns(id)) && FiringAt(s, Apply(s, JobRuns(id)), id, Started)
  {
  }

  lemma BackAndForth<T>(m: multiset<T>, x: T)
    ensures m + multiset{x} - multiset{x} == m && x in m + multiset{x}
  {
  }

  lemma FiringLoads(s: State, t: State, id: nat)
    requires id in s.store.db && FiringAt(s, t, id, Started)
    ensures Enabled(t, Load(id)) && FiringAt(s, Apply(t, Load(id)), id, Loaded)
  {
    BackAndForth(s.inFlight, Firing(id, Started));
  }

  lemma FiringPushes(s: State, t: State, id: nat)
    requires id in s.store.db && FiringAt(s, t, id, Loaded)
    ensures Enabled(t, Push(id)) && FiringAt(s, Apply(t, Push(id)), id, Pushed)
  {
    BackAndForth(s.inFlight, Firing(id, Loaded));
  }

  lemma FiringEnds(s: State, t: State, id: nat)
    requires Inv(s) && id in s.store.db && FiringAt(s, t, id, Pushed)
    ensures Enabled(t, Finish(id))
    ensures var u := Apply(t, Finish(id));
      && u.pushes == s.pushes + [id] && u.inFlight == s.inFlight && u.pending == s.pending
      && (s.store.db[id].recurrence.Once? ==> u.store == Cancelled(s.store, id))
      && (s.store.db[id].recurrence.Cron? ==> u.store == s.store)
  {
    BackAndForth(s.inFlight, Firing(id, Pushed));
  }

  /** Nothing is being fired and no restart is under way. */
  predicate Quiescent(s: State)
  {
    s.inFlight == multiset{} && s.pending == []
  }

  /** A job for exactly the stored timers, each with the trigger its row determines. */
  predicate Agrees(s: Store)
  {
    s.jobs == map id | id in s.db :: TriggerOf(s.db[id])
  }

  /**
   * Step `i` leaves timer `id` without a job until the next restart: it is created with a refused cron; its date job
   * runs although the row, being cronless, stays; or a restart fails before it has dealt with the row.
   */
  predicate LosesJob(steps: seq<Step>, i: nat, id: nat)
  {
    && i < |steps|
    && (forall j :: i < j < |steps| ==> !steps[j].Crash?)
    && var s := Exec(steps[..i]).1;
       || (steps[i].Create? && Refused(steps[i].timer) && id == s.store.nextId)
       || (steps[i] == JobRuns(id) && id in s.store.db && s.store.db[id].recurrence.Cronless?)
       || (steps[i].RestoreFails? && id in s.pending)
  }

  lemma {:induction false} JoblessIs(steps: seq<Step>, id: nat)
    requires Exec(steps).0
    ensures id in Exec(steps).1.jobless <==> exists i: nat :: LosesJob(steps, i, id)
  {
    hide Exec, Apply, Enabled, LosesJob, Inv, Refused;
    if steps == [] {
      Empty();
      NothingLost(id);
    } else {
      var before := steps[..|steps| - 1];
      LastStep(steps);
      JoblessIs(before, id);
      ReachableInv(before);
      JoblessStep(Exec(before).1, steps[|before|], id);
      EarlierLosses(before, steps, id);
    }
  }

  lemma LastStep(steps: seq<Step>)
    requires steps != [] && Exec(steps).0
    ensures var n := |steps| - 1;
      && Exec(steps[..n]).0 && Enabled(Exec(steps[..n]).1, steps[n])
      && Exec(steps).1 == Apply(Exec(steps[..n]).1, steps[n])
  {
    hide Enabled, Apply;
  }

  lemma NothingLost(id: nat)
    ensures forall i: nat :: !LosesJob([], i, id)
  {
  }

  lemma EarlierLosses(before: seq<Step>, steps: seq<Step>, id: nat)
    requires steps != [] && before == steps[..|steps| - 1]
    ensures var s, step := Exec(before).1, steps[|before|];
      (exists i: nat :: LosesJob(steps, i, id)) <==>
        || ((exists i: nat :: LosesJob(before, i, id)) && !step.Crash?)
        || (step.Create? && Refused(step.timer) && id == s.store.nextId)
        || (step == JobRuns(id) && id in s.store.db && s.store.db[id].recurrence.Cronless?)
        || (step.RestoreFails? && id in s.pending)
  {
    hide Exec, Refused, LosesJob;
    var n := |before|;
    forall i: nat ensures LosesJob(steps, i, id) <==>
        (LosesJob(before, i, id) && !steps[n].Crash?) || (i == n && LosesJob(steps, n, id)) {
      LossAt(before, steps, i, id);
    }
    LossNow(before, steps, id);
  }

  lemma LossAt(before: seq<Step>, steps: seq<Step>, i: nat, id: nat)
    requires steps != [] && before == steps[..|steps| - 1]
    ensures LosesJob(steps, i, id) <==>
      (LosesJob(before, i, id) && !steps[|before|].Crash?) || (i == |before| && LosesJob(steps, |before|, id))
  {
    hide Exec, Refused;
    if i < |before| {
      assert before[..i] == steps[..i];
    }
  }

  lemma LossNow(before: seq<Step>, steps: seq<Step>, id: nat)
    requires steps != [] && before == steps[..|steps| - 1]
    ensures var s, step := Exec(before).1, steps[|before|];
      LosesJob(steps, |before|, id) <==>
        || (step.Create? && Refused(step.timer) && id == s.store.nextId)
        || (step == JobRuns(id) && id in s.store.db && s.store.db[id].recurrence.Cronless?)
        || (step.RestoreFails? && id in s.pending)
  {
    hide Exec, Refused;
  }

  lemma JoblessStep(s: State, step: Step, id: nat)
    requires Inv(s) && Enabled(s, step)
    ensures id in Apply(s, step).jobless <==>
      || (id in s.jobless && !step.Crash?)
      || (step.Create? && Refused(step.timer) && id == s.store.nextId)
      || (step == JobRuns(id) && id in s.store.db && s.store.db[id].recurrence.Cronless?)
      || (step.RestoreFails? && id in s.pending)
  {
  }

  /**
   * In every quiescent state a stored timer has its job unless a step has taken it away since the last crash, so the
   * two stores agree exactly when no stored timer has lost its job.
   */
  lemma StoresAgree(steps: seq<Step>)
    requires Exec(steps).0 && Quiescent(Exec(steps).1)
    ensures var s := Exec(steps).1;
      && (forall id :: id in s.store.jobs <==> id in s.store.db && !exists i: nat :: LosesJob(steps, i, id))
      && (forall id :: id in s.store.jobs ==> HasOwnTrigger(s.store, id))
      && (Agrees(s.store) <==> forall i: nat, id: nat :: LosesJob(steps, i, id) ==> id !in s.store.db)
  {
    ReachableInv(steps);
    hide Exec, Enabled, Apply, LosesJob;
    var s := Exec(steps).1;
    assert Shape(s);
    forall id: nat
      ensures id in s.store.jobs <==> id in s.store.db && !exists i: nat :: LosesJob(steps, i, id)
    {
      assert TimerInv(s, id);
      JoblessIs(steps, id);
    }
    if i: nat, id: nat :| LosesJob(steps, i, id) && id in s.store.db {
      assert id !in s.store.jobs;
    } else {
      assert s.store.jobs == map id | id in s.store.db :: TriggerOf(s.store.db[id]);
    }
  }

  /** Its job runs by its cron if it has one, and at the time it is due otherwise. */
  predicate HasOwnTrigger(s: Store, id: nat)
    requires id in s.jobs && id in s.db
  {
    s.jobs[id] == if s.db[id].recurrence.Cron? then AtCron(s.db[id].recurrence.expr) else AtDate(s.db[id].firesAt)
  }

  /** Every recurrence created carries a cron that the scheduler accepts, and no restart fails. */
  predicate Careful(steps: seq<Step>)
  {
    forall i :: 0 <= i < |steps| ==>
      && (steps[i].Create? ==> !steps[i].timer.recurrence.Cronless?)
      && (steps[i].Create? && steps[i].timer.recurrence.Cron? ==> steps[i].timer.recurrence.accepted)
      && !steps[i].RestoreFails?
  }

  /** Then table and job store agree in every quiescent state. */
  lemma CarefulRunsAgree(steps: seq<Step>)
    requires Exec(steps).0 && Quiescent(Exec(steps).1) && Careful(steps)
    ensures Agrees(Exec(steps).1.store)
  {
    StoresAgree(steps);
    hide Agrees;
    forall i: nat, id: nat ensures !LosesJob(steps, i, id) {
      if i < |steps| {
        NoCronless(steps, i);
        PrefixRuns(steps, i);
        ReachableInv(steps[..i]);
      }
    }
  }

  lemma {:induction false} PrefixRuns(steps: seq<Step>, i: nat)
    requires Exec(steps).0 && i <= |steps|
    ensures Exec(steps[..i]).0
    decreases |steps|
  {
    if i == |steps| {
      assert steps[..i] == steps;
    } else {
      PrefixRuns(steps[..|steps| - 1], i);
      assert steps[..|steps| - 1][..i] == steps[..i];
    }
  }

  lemma {:induction false} NoCronless(steps: seq<Step>, i: nat)
    requires Careful(steps) && i <= |steps|
    ensures forall id :: id in Exec(steps[..i]).1.created ==> !Exec(steps[..i]).1.created[id].recurrence.Cronless?
  {
    hide Enabled, Apply;
    if i > 0 {
      NoCronless(steps, i - 1);
      assert steps[..i][..i - 1] == steps[..i - 1];
      if Enabled(Exec(steps[..i - 1]).1, steps[i - 1]) {
        CreatedStep(Exec(steps[..i - 1]).1, steps[i - 1]);
      }
    }
  }

  lemma CreatedStep(s: State, step: Step)
    requires Enabled(s, step) && !(step.Create? && step.timer.recurrence.Cronless?)
    requires forall id :: id in s.created ==> !s.created[id].recurrence.Cronless?
    ensures forall id :: id in Apply(s, step).created ==> !Apply(s, step).created[id].recurrence.Cronless?
  {
  }

  // ---------- a run in which the stores come apart ----------

  /** The clock when a timer created at time 0 is due. */
  function Due(t: Timer): int { if t.firesAt > 0 then t.firesAt else 0 }

  /** The state of a store whose only timer `t` has been fired, at the given point of the firing. */
  function Fired(t: Timer, inFlight: multiset<Firing>, pushes: seq<nat>): State
  {
    State(Store(map[0 := t], map[], 1), Due(t), map[0 := t], inFlight, [], {0}, pushes)
  }

  function Waiting(t: Timer): State
  {
    State(Store(map[0 := t], map[0 := AtDate(t.firesAt)], 1), Due(t), map[0 := t], multiset{}, [], {}, [])
  }

  lemma JobIsDue(t: Timer)
    requires t.recurrence.Cronless? && !t.kind.InvalidKind?
    ensures Enabled(INITIAL, Create(t)) && Enabled(Apply(INITIAL, Create(t)), Tick(Due(t)))
    ensures Apply(Apply(INITIAL, Create(t)), Tick(Due(t))) == Waiting(t)
  {
  }

  lemma JobIsSpent(t: Timer)
    requires t.recurrence.Cronless?
    ensures Enabled(Waiting(t), JobRuns(0))
    ensures Apply(Waiting(t), JobRuns(0)) == Fired(t, multiset{Firing(0, Started)}, [])
  {
    assert map[0 := AtDate(t.firesAt)] - {0} == map[];
  }

  lemma FiredLoads(t: Timer)
    ensures Apply(Fired(t, multiset{Firing(0, Started)}, []), Load(0)) == Fired(t, multiset{Firing(0, Loaded)}, [])
  {
    var f := multiset{Firing(0, Started)};
    assert f - f == multiset{};
  }

  lemma FiredPushes(t: Timer)
    ensures Apply(Fired(t, multiset{Firing(0, Loaded)}, []), Push(0)) == Fired(t, multiset{Firing(0, Pushed)}, [0])
  {
    var f := multiset{Firing(0, Loaded)};
    assert f - f == multiset{};
  }

  lemma FiredFinishes(t: Timer)
    requires !t.recurrence.Once?
    ensures Apply(Fired(t, multiset{Firing(0, Pushed)}, [0]), Finish(0)) == Fired(t, multiset{}, [0])
  {
    var f := multiset{Firing(0, Pushed)};
    assert f - f == multiset{};
  }

  /** Any cronless timer, whenever it is due, stays stored without a job once it has fired. */
  lemma CronlessTimerLosesItsJob(t: Timer)
    requires t.recurrence.Cronless? && !t.kind.InvalidKind?
    ensures var steps := [Create(t), Tick(Due(t)), JobRuns(0), Load(0), Push(0), Finish(0)];
      && Exec(steps).0 && Quiescent(Exec(steps).1)
      && Exec(steps).1.store == Store(map[0 := t], map[], 1) && !Agrees(Exec(steps).1.store)
  {
    hide Exec, Apply;
    JobIsDue(t);
    JobIsSpent(t);
    FiredLoads(t);
    FiredPushes(t);
    FiredFinishes(t);
    Empty();
    var a := [Create(t), Tick(Due(t))];
    Runs([], Create(t), [Create(t)]);
    Runs([Create(t)], Tick(Due(t)), a);
    Runs(a, JobRuns(0), a + [JobRuns(0)]);
    Runs(a + [JobRuns(0)], Load(0), a + [JobRuns(0), Load(0)]);
    Runs(a + [JobRuns(0), Load(0)], Push(0), a + [JobRuns(0), Load(0), Push(0)]);
    Runs(a + [JobRuns(0), Load(0), Push(0)], Finish(0), a + [JobRuns(0), Load(0), Push(0), Finish(0)]);
    assert a + [JobRuns(0), Load(0), Push(0), Finish(0)] ==
      [Create(t), Tick(Due(t)), JobRuns(0), Load(0), Push(0), Finish(0)];
    assert 0 in Fired(t, multiset{}, [0]).store.db;
  }

  lemma Empty()
    ensures Exec([]) == (true, INITIAL)
  {
  }

  lemma Runs(before: seq<Step>, step: Step, after: seq<Step>)
    requires after == before + [step] && Exec(before).0 && Enabled(Exec(before).1, step)
    ensures Exec(after) == (true, Apply(Exec(before).1, step))
  {
    assert after[..|after| - 1] == before;
  }
}
