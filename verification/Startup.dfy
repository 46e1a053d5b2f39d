/** The start of the process: scenario jobs first, timer jobs after them, and one handler around both. */
module Startup {
  import Schedules
  import Timers

  /**
   * Both job stores of a fresh process are empty, and the orders are the query results. Everything is restored exactly
   * when no stored, enabled scenario and no stored timer has a rejected cron. Otherwise the timers have been dealt with
   * up to the first rejected one, none at all if it was a scenario's: the others have no job, and the overdue
   * one-shots among them are still there.
   */
  method Restore(scenarios: Schedules.ScenarioService, scenarioOrder: seq<nat>,
                 timers: Timers.TimerService, timerOrder: seq<nat>, readings: seq<int>)
    returns (restored: bool, done: nat)
    requires scenarios.jobs == map[] && timers.jobs == map[]
    requires forall id :: id in scenarioOrder <==> id in scenarios.scenarios
    requires |timerOrder| == |readings| && forall id :: id in timerOrder <==> id in timers.db
    requires forall i, j :: 0 <= i < j < |timerOrder| ==> timerOrder[i] != timerOrder[j]
    modifies scenarios, timers
    ensures scenarios.scenarios == old(scenarios.scenarios)
    ensures restored <==>
      && Schedules.Quiet(scenarios.valid, scenarios.scenarios)
      && forall id :: id in old(timers.db) ==>
        (old(timers.db)[id].recurrence.Cron? ==> old(timers.db)[id].recurrence.accepted)
    ensures done <= |timerOrder| && (restored ==> done == |timerOrder|)
    ensures !Schedules.Quiet(scenarios.valid, scenarios.scenarios) ==> done == 0
    ensures !restored && Schedules.Quiet(scenarios.valid, scenarios.scenarios) ==>
      done < |timerOrder| && Timers.Refused(old(timers.db)[timerOrder[done]])
    ensures forall i :: 0 <= i < done ==>
      && (timerOrder[i] in timers.db <==>
           !(old(timers.db)[timerOrder[i]].recurrence.Once? && old(timers.db)[timerOrder[i]].firesAt <= readings[i]))
      && (timerOrder[i] in timers.db <==> timerOrder[i] in timers.jobs)
    ensures forall i :: done <= i < |timerOrder| ==> timerOrder[i] in timers.db && timerOrder[i] !in timers.jobs
    ensures forall id :: id in timers.db ==> id in old(timers.db) && timers.db[id] == old(timers.db)[id]
    ensures forall id :: id in timers.jobs ==>
      id in timers.db && timers.jobs[id] == Timers.TriggerOf(timers.db[id])
    ensures Timers.Agrees(timers.Abs()) <==> restored || timers.db == map[]
  {
    hide Schedules.Raises, Timers.Overdue, Timers.TriggerOf, Timers.RestoredRows, Timers.Refused, Timers.Agrees;
    var raised := scenarios.SyncAllSchedules(scenarioOrder);
    ghost var rows, nextId := timers.db, timers.nextId;
    if raised {
      restored, done := false, 0;
    } else {
      done := timers.RescheduleAll(timerOrder, readings);
      restored := done == |timerOrder|;
      Timers.RestartRestores(rows, nextId, timerOrder, readings, done);
    }
    Agreement(timers.Abs(), timerOrder, done);
    forall id | id in rows
      ensures Timers.Refused(rows[id]) <==> rows[id].recurrence.Cron? && !rows[id].recurrence.accepted
    {
      Timers.OverdueIs(rows[id], 0);
    }
  }

  /** Table and job store agree when all rows have been dealt with, or none is left. */
  lemma Agreement(s: Timers.Store, order: seq<nat>, done: nat)
    requires done <= |order| && forall id :: id in s.db ==> id in order
    requires forall i :: 0 <= i < done ==> (order[i] in s.db <==> order[i] in s.jobs)
    requires forall i :: done <= i < |order| ==> order[i] in s.db && order[i] !in s.jobs
    requires forall id :: id in s.jobs ==> id in s.db && s.jobs[id] == Timers.TriggerOf(s.db[id])
    ensures Timers.Agrees(s) <==> done == |order| || s.db == map[]
  {
    hide Timers.TriggerOf;
    if done < |order| {
      assert order[done] in s.db;
    } else {
      assert s.jobs == map id | id in s.db :: Timers.TriggerOf(s.db[id]);
    }
  }
}
