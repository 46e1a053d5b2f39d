/** Scenario schedules: the job store against the stored scenarios, through create, delete and restart. */
module Schedules {
  import opened Text

  /** One entry of the trigger list; `cron` is `None` when the key is missing or null. */
  datatype Trigger = Trigger(isSchedule: bool, cron: Option<string>)

  datatype Scenario = Scenario(name: string, enabled: bool, triggers: seq<Trigger>)

  /** Whether the scheduler accepts a cron expression; a rejected one raises. */
  type CronCheck = string -> bool

  predicate Asks(t: Trigger)
  {
    t.isSchedule && t.cron.Some? && t.cron.value != ""
  }

  predicate Rejected(valid: CronCheck, t: Trigger)
  {
    Asks(t) && !valid(t.cron.value)
  }

  predicate Raises(valid: CronCheck, s: Scenario)
  {
    s.enabled && exists i :: 0 <= i < |s.triggers| && Rejected(valid, s.triggers[i])
  }

  /** The job of a scenario: the last cron it asks for before the first rejected one. */
  function JobOf(valid: CronCheck, s: Scenario): Option<string>
  {
    if s.enabled then LastCron(valid, s.triggers, None) else None
  }

  function LastCron(valid: CronCheck, triggers: seq<Trigger>, sofar: Option<string>): Option<string>
  {
    if triggers == [] || Rejected(valid, triggers[0]) then sofar
    else LastCron(valid, triggers[1..], if Asks(triggers[0]) then triggers[0].cron else sofar)
  }

  /** The last cron a trigger list asks for, whether or not the scheduler would take it. */
  function LastAsked(triggers: seq<Trigger>): Option<string>
  {
    if triggers == [] then None
    else
      var n := |triggers| - 1;
      if Asks(triggers[n]) then triggers[n].cron else LastAsked(triggers[..n])
  }

  /** The job a scenario should have. */
  function Wanted(s: Scenario): Option<string>
  {
    if s.enabled then LastAsked(s.triggers) else None
  }

  /** A schedule with a cron expression that is not empty. */
  predicate HasCron(t: Trigger)
  {
    t.isSchedule && t.cron.Some? && t.cron.value != ""
  }

  predicate IsLastCron(triggers: seq<Trigger>, k: nat)
  {
    k < |triggers| && HasCron(triggers[k]) && forall j :: k < j < |triggers| ==> !HasCron(triggers[j])
  }

  /** A scenario should run by the cron of the last such trigger; without one, or disabled, not at all. */
  lemma WantedIs(s: Scenario)
    ensures !s.enabled ==> Wanted(s).None?
    ensures s.enabled && (forall k :: 0 <= k < |s.triggers| ==> !HasCron(s.triggers[k])) ==> Wanted(s).None?
    ensures forall k: nat :: s.enabled && IsLastCron(s.triggers, k) ==> Wanted(s) == s.triggers[k].cron
  {
    LastAskedIs(s.triggers);
  }

  lemma {:induction false} LastAskedIs(triggers: seq<Trigger>)
    ensures (forall k :: 0 <= k < |triggers| ==> !HasCron(triggers[k])) ==> LastAsked(triggers).None?
    ensures forall k: nat :: IsLastCron(triggers, k) ==> LastAsked(triggers) == triggers[k].cron
  {
    if triggers != [] {
      var n := |triggers| - 1;
      LastAskedIs(triggers[..n]);
      forall k: nat | IsLastCron(triggers, k) ensures LastAsked(triggers) == triggers[k].cron {
        if k < n {
          assert IsLastCron(triggers[..n], k);
        }
      }
    }
  }

  predicate FirstRejected(valid: CronCheck, triggers: seq<Trigger>, i: nat)
  {
    i < |triggers| && Rejected(valid, triggers[i]) && forall j :: 0 <= j < i ==> !Rejected(valid, triggers[j])
  }

  /** A cron of the list is rejected, and the last one before it is not the last one of the list. */
  predicate OwnCronRejected(valid: CronCheck, s: Scenario)
  {
    && s.enabled
    && exists i :: 0 <= i < |s.triggers| && FirstRejected(valid, s.triggers, i)
                && LastAsked(s.triggers[..i]) != LastAsked(s.triggers)
  }

  lemma {:induction false} LastAskedSplit(a: seq<Trigger>, b: seq<Trigger>)
    ensures LastAsked(a + b) == if LastAsked(b).Some? then LastAsked(b) else LastAsked(a)
    decreases |b|
  {
    if b == [] {
      assert a + b == a;
    } else {
      var n := |b| - 1;
      assert (a + b)[..|a + b| - 1] == a + b[..n];
      LastAskedSplit(a, b[..n]);
    }
  }

  lemma {:induction false} LastCronIs(valid: CronCheck, triggers: seq<Trigger>, i: nat, sofar: Option<string>)
    requires i <= |triggers| && forall j :: 0 <= j < i ==> !Rejected(valid, triggers[j])
    requires i == |triggers| || Rejected(valid, triggers[i])
    ensures LastCron(valid, triggers, sofar) ==
      if LastAsked(triggers[..i]).Some? then LastAsked(triggers[..i]) else sofar
    decreases |triggers|
  {
    if i > 0 {
      var rest := triggers[1..];
      assert forall j :: 0 <= j < |rest| ==> rest[j] == triggers[j + 1];
      var next := if Asks(triggers[0]) then triggers[0].cron else sofar;
      LastCronIs(valid, rest, i - 1, next);
      assert triggers[..i] == [triggers[0]] + rest[..i - 1];
      LastAskedSplit([triggers[0]], rest[..i - 1]);
      assert [triggers[0]][..0] == [];
    }
  }

  lemma {:induction false} FirstRejectedExists(valid: CronCheck, triggers: seq<Trigger>, k: nat) returns (i: nat)
    requires k < |triggers| && Rejected(valid, triggers[k])
    ensures FirstRejected(valid, triggers, i)
  {
    hide Rejected;
    i := k;
    if j :| 0 <= j < k && Rejected(valid, triggers[j]) {
      i := FirstRejectedExists(valid, triggers, j);
    }
  }

  /** Registering a scenario gives it the job it should have exactly when no rejected cron stands in the way. */
  lemma JobIsWanted(valid: CronCheck, s: Scenario)
    ensures JobOf(valid, s) == Wanted(s) <==> !OwnCronRejected(valid, s)
    ensures !Raises(valid, s) ==> !OwnCronRejected(valid, s)
  {
    hide Rejected, LastAsked, LastCron;
    var ts := s.triggers;
    if k :| 0 <= k < |ts| && Rejected(valid, ts[k]) {
      var i := FirstRejectedExists(valid, ts, k);
      LastCronIs(valid, ts, i, None);
      forall j | 0 <= j < |ts| && FirstRejected(valid, ts, j) ensures j == i {
      }
    } else {
      LastCronIs(valid, ts, |ts|, None);
      assert ts[..|ts|] == ts;
    }
  }

  /** The k-th trigger asks for a cron and no later one does. */
  predicate AsksLast(triggers: seq<Trigger>, k: nat)
  {
    k < |triggers| && Asks(triggers[k]) && forall j :: k < j < |triggers| ==> !Asks(triggers[j])
  }

  /** When nothing is rejected it is simply the last cron of the list. */
  lemma {:induction false} LastCronIsLast(valid: CronCheck, triggers: seq<Trigger>, sofar: Option<string>)
    requires forall i :: 0 <= i < |triggers| ==> !Rejected(valid, triggers[i])
    ensures var r := LastCron(valid, triggers, sofar);
      && (forall k :: 0 <= k < |triggers| && AsksLast(triggers, k) ==> r == triggers[k].cron)
      && ((forall i :: 0 <= i < |triggers| ==> !Asks(triggers[i])) ==> r == sofar)
  {
    if triggers != [] {
      var rest := triggers[1..];
      assert forall i :: 0 <= i < |rest| ==> rest[i] == triggers[i + 1];
      LastCronIsLast(valid, rest, if Asks(triggers[0]) then triggers[0].cron else sofar);
      forall k | 0 < k < |triggers| && AsksLast(triggers, k) ensures AsksLast(rest, k - 1) {
        assert forall j :: k - 1 < j < |rest| ==> rest[j] == triggers[j + 1];
      }
    }
  }

  // ---------- the two stores ----------

  datatype Store = Store(scenarios: map<nat, Scenario>, jobs: map<nat, string>, nextId: nat)

  function Synced(valid: CronCheck, jobs: map<nat, string>, id: nat, s: Scenario): map<nat, string>
  {
    match JobOf(valid, s)
    case None => jobs - {id}
    case Some(cron) => jobs[id := cron]
  }

  predicate NameTaken(s: Store, name: string)
  {
    exists id :: id in s.scenarios && s.scenarios[id].name == name
  }

  function Created(valid: CronCheck, s: Store, scenario: Scenario): Store
  {
    Store(s.scenarios[s.nextId := scenario], Synced(valid, s.jobs, s.nextId, scenario), s.nextId + 1)
  }

  function Deleted(s: Store, id: nat): Store
  {
    s.(scenarios := s.scenarios - {id}, jobs := s.jobs - {id})
  }

  /** How many rows the restart loop gets through: it stops at the first one that raises, that one included. */
  function Reached(valid: CronCheck, scenarios: map<nat, Scenario>, order: seq<nat>): (n: nat)
    requires forall id :: id in order ==> id in scenarios
    ensures n <= |order|
    ensures forall i :: 0 <= i < n - 1 ==> !Raises(valid, scenarios[order[i]])
    ensures n < |order| ==> n > 0 && Raises(valid, scenarios[order[n - 1]])
  {
    if order == [] then 0
    else if Raises(valid, scenarios[order[0]]) then 1
    else
      var n := Reached(valid, scenarios, order[1..]);
      assert forall i :: 0 <= i < |order| - 1 ==> order[1..][i] == order[i + 1];
      1 + n
  }

  function SyncedRows(valid: CronCheck, jobs: map<nat, string>, scenarios: map<nat, Scenario>, order: seq<nat>,
                      n: nat): map<nat, string>
    requires n <= |order| && forall id :: id in order ==> id in scenarios
  {
    if n == 0 then jobs
    else Synced(valid, SyncedRows(valid, jobs, scenarios, order, n - 1), order[n - 1], scenarios[order[n - 1]])
  }

  datatype Creation = Conflict | Stored(id: nat) | StoredButRaised(id: nat)

  class ScenarioService {
    const valid: CronCheck
    var scenarios: map<nat, Scenario>
    var jobs: map<nat, string>
    var nextId: nat

    constructor (valid: CronCheck)
      ensures this.valid == valid && Abs() == Store(map[], map[], 0)
    {
      this.valid := valid;
      scenarios, jobs, nextId := map[], map[], 0;
    }

    function Abs(): Store
      reads this
    {
      Store(scenarios, jobs, nextId)
    }

    /** Drops the job, then adds it again for every cron in the list, the last one staying. */
    method SyncSchedule(id: nat, s: Scenario) returns (raised: bool)
      modifies this`jobs
      ensures jobs == Synced(valid, old(jobs), id, s)
      ensures raised <==> Raises(valid, s)
      ensures raised <==>
        s.enabled && exists t :: t in s.triggers && HasCron(t) && !valid(t.cron.value)
    {
      if id in jobs {
        jobs := jobs - {id};
      }
      if !s.enabled {
        return false;
      }
      ghost var dropped := jobs;
      assert dropped == old(jobs) - {id};
      ghost var job := None;
      for i := 0 to |s.triggers|
        invariant forall j :: 0 <= j < i ==> !Rejected(valid, s.triggers[j])
        invariant jobs == if job.Some? then dropped[id := job.value] else dropped
        invariant LastCron(valid, s.triggers, None) == LastCron(valid, s.triggers[i..], job)
      {
        var t := s.triggers[i];
        assert s.triggers[i..][1..] == s.triggers[i + 1..];
        if t.isSchedule && t.cron.Some? && t.cron.value != "" {
          if !valid(t.cron.value) {
            assert Rejected(valid, s.triggers[i]);
            return true;
          }
          jobs := jobs[id := t.cron.value];
          job := t.cron;
        }
      }
      raised := false;
    }

    /** The row is committed before its schedule is registered, so a rejected cron still leaves it stored. */
    method CreateScenario(s: Scenario) returns (result: Creation)
      modifies this
      ensures result.Conflict? <==> NameTaken(old(Abs()), s.name)
      ensures result.Conflict? ==> Abs() == old(Abs())
      ensures !result.Conflict? ==> Abs() == Created(valid, old(Abs()), s) && result.id == old(nextId)
      ensures !result.Conflict? ==> (result.StoredButRaised? <==> Raises(valid, s))
      ensures !result.Conflict? ==> scenarios == old(scenarios)[old(nextId) := s]
    {
      if exists id :: id in scenarios && scenarios[id].name == s.name {
        return Conflict;
      }
      var id := nextId;
      scenarios := scenarios[id := s];
      nextId := nextId + 1;
      var raised := SyncSchedule(id, s);
      result := if raised then StoredButRaised(id) else Stored(id);
    }

    /** The scenario is disabled first, so that synchronising it removes its job; `false` is the `NotFoundError`. */
    method DeleteScenario(id: nat) returns (found: bool)
      modifies this
      ensures found <==> id in old(scenarios)
      ensures Abs() == if found then Deleted(old(Abs()), id) else old(Abs())
      ensures found ==> scenarios == old(scenarios) - {id} && jobs == old(jobs) - {id}
    {
      if id !in scenarios {
        return false;
      }
      var _ := SyncSchedule(id, scenarios[id].(enabled := false));
      scenarios := scenarios - {id};
      found := true;
    }

    /** `order` lists the stored ids as the query returns them. */
    method SyncAllSchedules(order: seq<nat>) returns (raised: bool)
      requires forall id :: id in order ==> id in scenarios
      modifies this`jobs
      ensures jobs == SyncedRows(valid, old(jobs), scenarios, order, Reached(valid, scenarios, order))
      ensures raised <==> exists i :: 0 <= i < |order| && Raises(valid, scenarios[order[i]])
    {
      for i := 0 to |order|
        invariant forall j :: 0 <= j < i ==> !Raises(valid, scenarios[order[j]])
        invariant jobs == SyncedRows(valid, old(jobs), scenarios, order, i)
      {
        raised := SyncSchedule(order[i], scenarios[order[i]]);
        if raised {
          assert Reached(valid, scenarios, order) == i + 1 by { StopsAt(valid, scenarios, order, i); }
          return;
        }
      }
      raised := false;
    }
  }

  lemma StopsAt(valid: CronCheck, scenarios: map<nat, Scenario>, order: seq<nat>, i: nat)
    requires forall id :: id in order ==> id in scenarios
    requires i < |order| && Raises(valid, scenarios[order[i]])
    requires forall j :: 0 <= j < i ==> !Raises(valid, scenarios[order[j]])
    ensures Reached(valid, scenarios, order) == i + 1
  {
    hide Raises;
    var n := Reached(valid, scenarios, order);
    if n < |order| {
      assert Raises(valid, scenarios[order[n - 1]]);
    }
  }

  // ---------- every run ----------

  /** `skipped` is bookkeeping for the proofs; `Passed` says what it means. */
  datatype State = State(store: Store, skipped: set<nat>)

  datatype Op = Create(scenario: Scenario) | Delete(id: nat) | Restart(order: seq<nat>)

  predicate Enabled(s: State, op: Op)
  {
    match op
    case Create(scenario) => !NameTaken(s.store, scenario.name)
    case Delete(id) => id in s.store.scenarios
    case Restart(order) =>
      && (set id | id in order) == s.store.scenarios.Keys
      && forall i, j :: 0 <= i < j < |order| ==> order[i] != order[j]
  }

  /** A restarted process has an empty job store. */
  function Apply(valid: CronCheck, s: State, op: Op): State
    requires Enabled(s, op)
  {
    match op
    case Create(scenario) => s.(store := Created(valid, s.store, scenario))
    case Delete(id) => s.(store := Deleted(s.store, id))
    case Restart(order) =>
      var n := Reached(valid, s.store.scenarios, order);
      State(s.store.(jobs := SyncedRows(valid, map[], s.store.scenarios, order, n)), set id | id in order[n..])
  }

  function Exec(valid: CronCheck, ops: seq<Op>): (r: (bool, State))
  {
    if ops == [] then (true, State(Store(map[], map[], 0), {}))
    else
      var before := Exec(valid, ops[..|ops| - 1]);
      var op := ops[|ops| - 1];
      if before.0 && Enabled(before.1, op) then (true, Apply(valid, before.1, op)) else (false, before.1)
  }

  predicate HasJob(valid: CronCheck, s: State, id: nat)
  {
    if id in s.store.scenarios && id !in s.skipped && JobOf(valid, s.store.scenarios[id]).Some? then
      id in s.store.jobs && s.store.jobs[id] == JobOf(valid, s.store.scenarios[id]).value
    else
      id !in s.store.jobs
  }

  ghost predicate Inv(valid: CronCheck, s: State)
  {
    && (forall id :: id in s.store.scenarios ==> id < s.store.nextId)
    && (forall id :: id in s.skipped ==> id < s.store.nextId)
    && forall id: nat :: HasJob(valid, s, id)
  }

  lemma {:induction false} RowsSynced(valid: CronCheck, scenarios: map<nat, Scenario>, order: seq<nat>, n: nat, id: nat)
    requires n <= |order| && forall x :: x in order ==> x in scenarios
    ensures var jobs := SyncedRows(valid, map[], scenarios, order, n);
      if id in order[..n] && JobOf(valid, scenarios[id]).Some? then
        id in jobs && jobs[id] == JobOf(valid, scenarios[id]).value
      else id !in jobs
  {
    hide JobOf;
    if n > 0 {
      RowsSynced(valid, scenarios, order, n - 1, id);
      assert order[..n] == order[..n - 1] + [order[n - 1]];
    }
  }

  lemma RestartKeepsInv(valid: CronCheck, s: State, order: seq<nat>)
    requires Inv(valid, s) && Enabled(s, Restart(order))
    ensures Inv(valid, Apply(valid, s, Restart(order)))
  {
    hide JobOf, SyncedRows, Reached;
    assert forall id :: id in order ==> id in (set x | x in order);
    var n := Reached(valid, s.store.scenarios, order);
    var t := Apply(valid, s, Restart(order));
    forall id: nat ensures HasJob(valid, t, id) {
      RowsSynced(valid, s.store.scenarios, order, n, id);
      EitherSide(order, n, id);
      assert id in s.store.scenarios <==> id in (set x | x in order);
    }
    forall id | id in t.skipped ensures id < t.store.nextId {
      EitherSide(order, n, id);
    }
  }

  lemma EitherSide(order: seq<nat>, n: nat, id: nat)
    requires n <= |order| && forall i, j :: 0 <= i < j < |order| ==> order[i] != order[j]
    ensures id in order <==> (id in order[..n] <==> id !in order[n..])
  {
    if id in order[..n] {
      var i :| 0 <= i < n && order[i] == id;
      assert forall j :: 0 <= j < |order| - n ==> order[n..][j] == order[n + j];
    }
    assert order == order[..n] + order[n..];
  }

  lemma StepKeepsInv(valid: CronCheck, s: State, op: Op)
    requires Inv(valid, s) && Enabled(s, op)
    ensures Inv(valid, Apply(valid, s, op))
  {
    if op.Restart? {
      RestartKeepsInv(valid, s, op.order);
    } else {
      hide JobOf;
      var t := Apply(valid, s, op);
      forall id: nat ensures HasJob(valid, t, id) {
        assert HasJob(valid, s, id);
      }
    }
  }

  lemma {:induction false} ReachableInv(valid: CronCheck, ops: seq<Op>)
    requires Exec(valid, ops).0
    ensures Inv(valid, Exec(valid, ops).1)
  {
    if ops != [] {
      var n := |ops| - 1;
      ReachableInv(valid, ops[..n]);
      StepKeepsInv(valid, Exec(valid, ops[..n]).1, ops[n]);
    }
  }

  /** The job of a scenario, if it has one. */
  function JobAt(s: Store, id: nat): Option<string>
  {
    if id in s.jobs then Some(s.jobs[id]) else None
  }

  /** A job for exactly the stored, enabled scenarios that ask for one, with the last cron they ask for. */
  predicate Agrees(s: Store)
  {
    s.jobs == map id | id in s.scenarios && Wanted(s.scenarios[id]).Some? :: Wanted(s.scenarios[id]).value
  }

  /** Step `i` is the last restart, and before it gets to the row a row raises. */
  predicate Passed(valid: CronCheck, ops: seq<Op>, i: nat, id: nat)
  {
    && i < |ops| && ops[i].Restart?
    && (forall j :: i < j < |ops| ==> !ops[j].Restart?)
    && RaisesBefore(valid, Exec(valid, ops[..i]).1.store.scenarios, ops[i].order, id)
  }

  predicate RaisesBefore(valid: CronCheck, scenarios: map<nat, Scenario>, order: seq<nat>, id: nat)
  {
    exists q, p :: 0 <= q < p < |order| && order[p] == id && order[q] in scenarios && Raises(valid, scenarios[order[q]])
  }

  lemma SkippedByRestart(valid: CronCheck, scenarios: map<nat, Scenario>, order: seq<nat>, id: nat)
    requires forall x :: x in order ==> x in scenarios
    ensures id in order[Reached(valid, scenarios, order)..] <==> RaisesBefore(valid, scenarios, order, id)
  {
    hide Raises;
    var n := Reached(valid, scenarios, order);
    if id in order[n..] {
      var p :| 0 <= p < |order| - n && order[n..][p] == id;
      assert order[n + p] == id && order[n - 1] in scenarios;
    }
    if q, p :| 0 <= q < p < |order| && order[p] == id && Raises(valid, scenarios[order[q]]) {
      assert n <= q + 1;
      assert order[n..][p - n] == id;
    }
  }

  lemma {:induction false} SkippedIs(valid: CronCheck, ops: seq<Op>, id: nat)
    requires Exec(valid, ops).0
    ensures id in Exec(valid, ops).1.skipped <==> exists i: nat :: Passed(valid, ops, i, id)
  {
    if ops != [] {
      var n := |ops| - 1;
      var before := ops[..n];
      SkippedIs(valid, before, id);
      SkippedStep(valid, Exec(valid, before).1, ops[n], id);
      hide Exec, Passed;
      EarlierPassed(valid, before, ops, id);
    }
  }

  lemma EarlierPassed(valid: CronCheck, before: seq<Op>, ops: seq<Op>, id: nat)
    requires ops != [] && before == ops[..|ops| - 1]
    ensures (exists i: nat :: Passed(valid, ops, i, id)) <==>
      if ops[|before|].Restart? then
        RaisesBefore(valid, Exec(valid, before).1.store.scenarios, ops[|before|].order, id)
      else exists i: nat :: Passed(valid, before, i, id)
  {
    hide Exec, RaisesBefore;
    var n := |before|;
    forall i: nat | i < n ensures Passed(valid, ops, i, id) <==> Passed(valid, before, i, id) && !ops[n].Restart? {
      assert before[..i] == ops[..i];
    }
    assert forall i: nat :: Passed(valid, ops, i, id) ==> i <= n;
    assert forall i: nat :: Passed(valid, before, i, id) ==> i < n;
    assert Passed(valid, ops, n, id) <==>
      ops[n].Restart? && RaisesBefore(valid, Exec(valid, before).1.store.scenarios, ops[n].order, id);
  }

  lemma SkippedStep(valid: CronCheck, s: State, op: Op, id: nat)
    requires Enabled(s, op)
    ensures id in Apply(valid, s, op).skipped <==>
      if op.Restart? then RaisesBefore(valid, s.store.scenarios, op.order, id) else id in s.skipped
  {
    hide RaisesBefore, Reached, SyncedRows;
    if op.Restart? {
      assert forall x :: x in op.order ==> x in (set y | y in op.order);
      SkippedByRestart(valid, s.store.scenarios, op.order, id);
    }
  }

  /**
   * Why a stored scenario does not have the job it should have: the last restart raised before it got there, or, when
   * it was registered, one of its own crons was rejected.
   */
  ghost predicate Misses(valid: CronCheck, ops: seq<Op>, id: nat, s: Scenario)
  {
    if exists i: nat :: Passed(valid, ops, i, id) then Wanted(s).Some? else OwnCronRejected(valid, s)
  }

  /** After any run a stored scenario has the job it should have exactly when it does not miss it; nothing else has. */
  lemma JobsAgree(valid: CronCheck, ops: seq<Op>)
    requires Exec(valid, ops).0
    ensures var s := Exec(valid, ops).1.store;
      && (forall id :: id in s.jobs ==> id in s.scenarios)
      && (forall id :: id in s.scenarios ==>
           (JobAt(s, id) == Wanted(s.scenarios[id]) <==> !Misses(valid, ops, id, s.scenarios[id])))
      && (Agrees(s) <==> forall id :: id in s.scenarios ==> !Misses(valid, ops, id, s.scenarios[id]))
  {
    ReachableInv(valid, ops);
    hide Exec, JobOf, Wanted, OwnCronRejected, Passed;
    var s := Exec(valid, ops).1;
    forall id: nat
      ensures id in s.store.jobs ==> id in s.store.scenarios
      ensures id in s.store.scenarios ==> (JobAt(s.store, id) == Wanted(s.store.scenarios[id]) <==>
        !Misses(valid, ops, id, s.store.scenarios[id]))
    {
      assert HasJob(valid, s, id);
      SkippedIs(valid, ops, id);
      if id in s.store.scenarios {
        JobIsWanted(valid, s.store.scenarios[id]);
      }
    }
    RowByRow(s.store);
  }

  lemma RowByRow(s: Store)
    requires forall id :: id in s.jobs ==> id in s.scenarios
    ensures Agrees(s) <==> forall id :: id in s.scenarios ==> JobAt(s, id) == Wanted(s.scenarios[id])
  {
    hide Wanted;
    if forall id :: id in s.scenarios ==> JobAt(s, id) == Wanted(s.scenarios[id]) {
      assert forall id :: id in s.scenarios ==> (id in s.jobs <==> Wanted(s.scenarios[id]).Some?);
    } else {
      var id :| id in s.scenarios && JobAt(s, id) != Wanted(s.scenarios[id]);
      assert id in s.jobs <==> JobAt(s, id).Some?;
    }
  }

  /** When no scenario with a rejected cron is ever created, jobs and scenarios agree after every run. */
  lemma CarefulRunsAgree(valid: CronCheck, ops: seq<Op>)
    requires Exec(valid, ops).0
    requires forall i :: 0 <= i < |ops| && ops[i].Create? ==> !Raises(valid, ops[i].scenario)
    ensures Agrees(Exec(valid, ops).1.store)
  {
    hide Exec, Raises, OwnCronRejected, Agrees, Passed, Wanted;
    JobsAgree(valid, ops);
    NothingRaises(valid, ops, |ops|);
    assert ops[..|ops|] == ops;
    var s := Exec(valid, ops).1.store;
    forall i: nat, id: nat ensures !Passed(valid, ops, i, id) {
      NothingPassed(valid, ops, i, id);
    }
    forall id | id in s.scenarios ensures !Misses(valid, ops, id, s.scenarios[id]) {
      assert !Raises(valid, s.scenarios[id]);
      JobIsWanted(valid, s.scenarios[id]);
    }
  }

  /** No stored scenario has a rejected cron. */
  predicate Quiet(valid: CronCheck, scenarios: map<nat, Scenario>)
  {
    forall id :: id in scenarios ==> !Raises(valid, scenarios[id])
  }

  lemma {:induction false} NothingRaises(valid: CronCheck, ops: seq<Op>, n: nat)
    requires n <= |ops| && forall i :: 0 <= i < n && ops[i].Create? ==> !Raises(valid, ops[i].scenario)
    ensures Quiet(valid, Exec(valid, ops[..n]).1.store.scenarios)
  {
    hide Raises, Apply, Enabled, Quiet;
    NoOps(valid);
    QuietAtFirst(valid);
    if n > 0 {
      NothingRaises(valid, ops, n - 1);
      assert ops[..n][..n - 1] == ops[..n - 1];
      var before := Exec(valid, ops[..n - 1]);
      if Enabled(before.1, ops[n - 1]) {
        QuietStep(valid, before.1, ops[n - 1]);
      }
    }
  }

  lemma QuietAtFirst(valid: CronCheck)
    ensures Quiet(valid, map[])
  {
  }

  lemma QuietStep(valid: CronCheck, s: State, op: Op)
    requires Enabled(s, op) && (op.Create? ==> !Raises(valid, op.scenario)) && Quiet(valid, s.store.scenarios)
    ensures Quiet(valid, Apply(valid, s, op).store.scenarios)
  {
    hide Raises, Synced, SyncedRows, Reached;
  }

  lemma NothingPassed(valid: CronCheck, ops: seq<Op>, i: nat, id: nat)
    requires forall j :: 0 <= j < |ops| && ops[j].Create? ==> !Raises(valid, ops[j].scenario)
    ensures !Passed(valid, ops, i, id)
  {
    hide Exec, Raises, RaisesBefore, Quiet;
    if i < |ops| && ops[i].Restart? {
      NothingRaises(valid, ops, i);
      QuietRestart(valid, Exec(valid, ops[..i]).1.store.scenarios, ops[i].order, id);
    }
  }

  lemma QuietRestart(valid: CronCheck, scenarios: map<nat, Scenario>, order: seq<nat>, id: nat)
    requires Quiet(valid, scenarios)
    ensures !RaisesBefore(valid, scenarios, order, id)
  {
    hide Raises;
  }

  /** The jobs are those that registering every stored scenario once would give. */
  predicate Settled(valid: CronCheck, s: Store)
  {
    s.jobs == map id | id in s.scenarios && JobOf(valid, s.scenarios[id]).Some? :: JobOf(valid, s.scenarios[id]).value
  }

  /** Synchronising any stored rows again, any number of times, changes nothing. */
  lemma {:induction false} ResyncChangesNothing(valid: CronCheck, s: Store, order: seq<nat>, n: nat)
    requires Settled(valid, s) && n <= |order| && forall id :: id in order ==> id in s.scenarios
    ensures SyncedRows(valid, s.jobs, s.scenarios, order, n) == s.jobs
  {
    hide JobOf;
    if n > 0 {
      ResyncChangesNothing(valid, s, order, n - 1);
    }
  }

  /** Where no cron is rejected, to be settled is to agree. */
  lemma SettledAgrees(valid: CronCheck, s: Store)
    requires Quiet(valid, s.scenarios)
    ensures Settled(valid, s) <==> Agrees(s)
  {
    hide Raises, JobOf, Wanted, OwnCronRejected;
    forall id | id in s.scenarios ensures JobOf(valid, s.scenarios[id]) == Wanted(s.scenarios[id]) {
      JobIsWanted(valid, s.scenarios[id]);
    }
    assert (map id | id in s.scenarios && JobOf(valid, s.scenarios[id]).Some? :: JobOf(valid, s.scenarios[id]).value) ==
      (map id | id in s.scenarios && Wanted(s.scenarios[id]).Some? :: Wanted(s.scenarios[id]).value);
  }

  /** One rejected cron is enough: the scenario after it, perfectly valid, has no job once the process restarts. */
  lemma RejectedCronHidesTheNext(valid: CronCheck, bad: Scenario, good: Scenario)
    requires Raises(valid, bad) && !Raises(valid, good) && Wanted(good).Some? && bad.name != good.name
    ensures var ops := [Create(bad), Create(good), Restart([0, 1])];
      var s := Exec(valid, ops).1.store;
      && Exec(valid, ops).0
      && s.scenarios == map[0 := bad, 1 := good] && 1 !in s.jobs && !Agrees(s)
  {
    hide Exec, JobOf, Raises, Agrees, SyncedRows, Wanted, OwnCronRejected;
    var two, ops := [Create(bad), Create(good)], [Create(bad), Create(good), Restart([0, 1])];
    NoOps(valid);
    Runs(valid, [], Create(bad), [Create(bad)]);
    Runs(valid, [Create(bad)], Create(good), two);
    assert (set id | id in [0, 1]) == map[0 := bad, 1 := good].Keys;
    Runs(valid, two, Restart([0, 1]), ops);
    assert ops[..2] == two;
    assert RaisesBefore(valid, map[0 := bad, 1 := good], [0, 1], 1) by {
      assert [0, 1][1] == 1 && [0, 1][0] == 0;
    }
    assert Passed(valid, ops, 2, 1);
    SkippedIs(valid, ops, 1);
    ReachableInv(valid, ops);
    assert HasJob(valid, Exec(valid, ops).1, 1);
    JobsAgree(valid, ops);
  }

  /** The row whose own cron is rejected is stored and enabled, and has no job from the start. */
  lemma RejectedCronIsStored(valid: CronCheck, cron: string)
    requires cron != "" && !valid(cron)
    ensures var s := Exec(valid, [Create(Scenario("s", true, [Trigger(true, Some(cron))]))]).1.store;
      0 in s.scenarios && Wanted(s.scenarios[0]) == Some(cron) && s.jobs == map[] && !Agrees(s)
  {
    var bad := Scenario("s", true, [Trigger(true, Some(cron))]);
    NoOps(valid);
    Runs(valid, [], Create(bad), [Create(bad)]);
    var s := Exec(valid, [Create(bad)]).1.store;
    assert s.jobs == map[];
    assert Wanted(bad) == Some(cron);
    assert 0 in s.scenarios;
  }

  lemma NoOps(valid: CronCheck)
    ensures Exec(valid, []) == (true, State(Store(map[], map[], 0), {}))
  {
  }

  lemma Runs(valid: CronCheck, before: seq<Op>, op: Op, after: seq<Op>)
    requires after == before + [op] && Exec(valid, before).0 && Enabled(Exec(valid, before).1, op)
    ensures Exec(valid, after) == (true, Apply(valid, Exec(valid, before).1, op))
  {
    assert after[..|after| - 1] == before;
  }
}
