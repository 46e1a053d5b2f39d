/** Scenarios: serial groups of parallel actions. */
module Scenarios {
  import opened Text
  import Devices

  /** `complete`: the keys a device command needs are present; `valid`: the seconds of a wait are a number. */
  datatype Command =
    | DeviceCommand(complete: bool)
    | Wait(valid: bool)
    | Announce(hub: string, text: string)
    | UnknownType

  datatype Action = Action(order: int, parallel: Option<int>, device: Option<nat>, command: Command)

  // ---------- grouping ----------

  function Flatten(groups: seq<seq<Action>>): seq<Action>
  {
    if groups == [] then [] else groups[0] + Flatten(groups[1..])
  }

  lemma {:induction false} FlattenAppend(a: seq<seq<Action>>, b: seq<seq<Action>>)
    ensures Flatten(a + b) == Flatten(a) + Flatten(b)
  {
    if a == [] {
      assert a + b == b;
    } else {
      assert (a + b)[1..] == a[1..] + b;
      FlattenAppend(a[1..], b);
    }
  }

  lemma FlattenSnoc(groups: seq<seq<Action>>, g: seq<Action>)
    ensures Flatten(groups + [g]) == Flatten(groups) + g
  {
    FlattenAppend(groups, [g]);
    assert [g][1..] == [] && g + [] == g;
  }

  /** Not empty, and when it has several actions they share one `parallel_group` that is not null. */
  predicate IsGroup(g: seq<Action>)
  {
    g != [] && forall i :: 0 < i < |g| ==> g[i].parallel == g[0].parallel && g[0].parallel.Some?
  }

  predicate Joinable(g: seq<Action>, h: seq<Action>)
  {
    g != [] && h != [] && g[0].parallel.Some? && g[0].parallel == h[0].parallel
  }

  /** The groups cut the action list, and no two neighbours could have been one group. */
  predicate IsGrouping(groups: seq<seq<Action>>, actions: seq<Action>)
  {
    && Flatten(groups) == actions
    && (forall k :: 0 <= k < |groups| ==> IsGroup(groups[k]))
    && (forall k :: 0 < k < |groups| ==> !Joinable(groups[k - 1], groups[k]))
  }

  method GroupActions(actions: seq<Action>) returns (groups: seq<seq<Action>>)
    ensures IsGrouping(groups, actions)
  {
    NoGroups();
    hide IsGrouping;
    groups := [];
    for i := 0 to |actions|
      invariant IsGrouping(groups, actions[..i])
    {
      var action := actions[i];
      var n := |groups|;
      assert actions[..i + 1] == actions[..i] + [action];
      GroupsNotEmpty(groups, actions[..i]);
      if groups != [] && action.parallel.Some? && groups[n - 1][0].parallel == action.parallel {
        JoinsLast(groups, actions[..i], action);
        groups := groups[..n - 1] + [groups[n - 1] + [action]];
      } else {
        OpensNew(groups, actions[..i], action);
        groups := groups + [[action]];
      }
    }
    assert actions[..|actions|] == actions;
  }

  lemma NoGroups()
    ensures IsGrouping([], [])
  {
  }

  lemma GroupsNotEmpty(groups: seq<seq<Action>>, actions: seq<Action>)
    requires IsGrouping(groups, actions)
    ensures forall k :: 0 <= k < |groups| ==> groups[k] != [] && IsGroup(groups[k])
  {
    assert forall k :: 0 <= k < |groups| ==> IsGroup(groups[k]);
  }

  lemma JoinsLast(groups: seq<seq<Action>>, actions: seq<Action>, action: Action)
    requires IsGrouping(groups, actions) && groups != [] && IsGroup(groups[|groups| - 1])
    requires action.parallel.Some? && groups[|groups| - 1][0].parallel == action.parallel
    ensures IsGrouping(groups[..|groups| - 1] + [groups[|groups| - 1] + [action]], actions + [action])
  {
    var n := |groups| - 1;
    var before, last := groups[..n], groups[n];
    assert Flatten(before + [last + [action]]) == actions + [action] by {
      FlattenSnoc(before, last);
      FlattenSnoc(before, last + [action]);
      assert groups == before + [last];
      Associative(Flatten(before), last, [action]);
    }
    hide Flatten;
    assert IsGroup(last + [action]);
    assert n > 0 ==> !Joinable(groups[n - 1], last);
  }

  lemma OpensNew(groups: seq<seq<Action>>, actions: seq<Action>, action: Action)
    requires IsGrouping(groups, actions)
    requires groups != [] && groups[|groups| - 1] != [] ==>
      action.parallel.None? || groups[|groups| - 1][0].parallel != action.parallel
    ensures IsGrouping(groups + [[action]], actions + [action])
  {
    FlattenSnoc(groups, [action]);
    hide Flatten;
  }

  /** There is only one such cut, so the grouping is determined by the three conditions. */
  lemma {:induction false} GroupingIsUnique(g: seq<seq<Action>>, h: seq<seq<Action>>, actions: seq<Action>)
    requires IsGrouping(g, actions) && IsGrouping(h, actions)
    ensures g == h
  {
    OnlyTheEmptyListHasNoGroups(g, actions);
    OnlyTheEmptyListHasNoGroups(h, actions);
    if actions != [] {
      FirstGroupIsLongest(g, actions);
      FirstGroupIsLongest(h, actions);
      TailIsGrouping(g, actions);
      TailIsGrouping(h, actions);
      GroupingIsUnique(g[1..], h[1..], actions[|g[0]|..]);
      assert g == [g[0]] + g[1..] && h == [h[0]] + h[1..];
    }
  }

  lemma OnlyTheEmptyListHasNoGroups(g: seq<seq<Action>>, actions: seq<Action>)
    requires IsGrouping(g, actions)
    ensures g == [] <==> actions == []
  {
    if g != [] {
      assert IsGroup(g[0]);
    }
  }

  lemma TailIsGrouping(g: seq<seq<Action>>, actions: seq<Action>)
    requires IsGrouping(g, actions) && g != []
    ensures IsGrouping(g[1..], actions[|g[0]|..])
  {
    var t := g[1..];
    assert forall k :: 0 <= k < |t| ==> t[k] == g[k + 1];
    forall k | 0 < k < |t| ensures !Joinable(t[k - 1], t[k]) {
      assert !Joinable(g[k], g[k + 1]);
    }
  }

  /** The first group is the longest start of the list that is a group. */
  lemma FirstGroupIsLongest(g: seq<seq<Action>>, actions: seq<Action>)
    requires IsGrouping(g, actions) && g != []
    ensures |g[0]| <= |actions| && actions[..|g[0]|] == g[0] && IsGroup(g[0])
    ensures forall m :: |g[0]| < m <= |actions| ==> !IsGroup(actions[..m])
  {
    var n := |g[0]|;
    assert IsGroup(g[0]);
    TailIsGrouping(g, actions);
    OnlyTheEmptyListHasNoGroups(g[1..], actions[n..]);
    forall m | n < m <= |actions| ensures !IsGroup(actions[..m]) {
      assert IsGroup(g[1]) && !Joinable(g[0], g[1]);
      assert Flatten(g[1..])[0] == g[1][0];
      assert actions[..m][n] == actions[n..][0] && actions[..m][0] == g[0][0];
    }
  }

  // ---------- one group, under any interleaving ----------

  /** A stored device: its `online` flag and whether its adapter type is registered. */
  datatype Device = Device(online: bool, adapterKnown: bool)

  /** The answer to the n-th await of the k-th action: `true` for success, `false` for a failure or an exception. */
  type World = (nat, nat) -> bool

  datatype ActionResult = ActionResult(order: int, ok: bool)

  /** The stored device a command is given, if any. */
  function LoadedDevice(a: Action, devices: map<nat, Device>): Option<nat>
  {
    if a.command.DeviceCommand? && a.device.Some? && a.device.value in devices then a.device else None
  }

  /** How often an action asks the world at most; 0 when it fails on its own. */
  function Awaits(a: Action, devices: map<nat, Device>): nat
  {
    match a.command
    case DeviceCommand(complete) =>
      var d := LoadedDevice(a, devices);
      if d.Some? && complete && devices[d.value].adapterKnown then Devices.ATTEMPTS else 0
    case Wait(valid) => if valid then 1 else 0
    case Announce(hub, text) => if hub == "" || text == "" then 0 else 1
    case UnknownType => 0
  }

  /** The outcome of the k-th action as a function of the world alone: the reference for every schedule. */
  predicate Succeeds(a: Action, devices: map<nat, Device>, world: World, k: nat)
  {
    match a.command
    case DeviceCommand(complete) =>
      && complete && a.device.Some? && a.device.value in devices && devices[a.device.value].adapterKnown
      && (world(k, 0) || world(k, 1) || world(k, 2))
    case Wait(valid) => valid
    case Announce(hub, text) => hub != "" && text != "" && world(k, 0)
    case UnknownType => false
  }

  /** A coroutine between two awaits. */
  datatype Runner = Running(asked: nat) | Finished(ok: bool)

  /** The coroutine up to its first await. */
  function Started(a: Action, devices: map<nat, Device>): Runner
  {
    if Awaits(a, devices) == 0 then Finished(false) else Running(0)
  }

  /** One await answered: a device command retries until it works or has failed three times; a wait cannot fail. */
  function Resumed(a: Action, r: Runner, reply: bool): Runner
    requires r.Running?
  {
    if a.command.DeviceCommand? && !reply && r.asked + 1 < Devices.ATTEMPTS then Running(r.asked + 1)
    else Finished(reply || a.command.Wait?)
  }

  /** What is known of a coroutine at any moment, whoever ran in between. */
  predicate RunnerInv(a: Action, r: Runner, devices: map<nat, Device>, world: World, k: nat)
  {
    match r
    case Finished(ok) => ok == Succeeds(a, devices, world, k)
    case Running(asked) => asked < Awaits(a, devices) && forall n: nat :: n < asked ==> !world(k, n)
  }

  function Remaining(runners: seq<Runner>): nat
  {
    if runners == [] then 0
    else
      var last := runners[|runners| - 1];
      Remaining(runners[..|runners| - 1]) +
      if last.Running? && last.asked < Devices.ATTEMPTS then Devices.ATTEMPTS - last.asked else 0
  }

  lemma {:induction false} RemainingDrops(runners: seq<Runner>, i: nat, r: Runner)
    requires i < |runners| && runners[i].Running? && runners[i].asked < Devices.ATTEMPTS
    requires r.Running? ==> r.asked > runners[i].asked
    ensures Remaining(runners[i := r]) < Remaining(runners)
  {
    var n := |runners| - 1;
    if i == n {
      assert runners[i := r][..n] == runners[..n];
    } else {
      assert runners[i := r][..n] == runners[..n][i := r];
      RemainingDrops(runners[..n], i, r);
    }
  }

  /**
   * `gather`: as long as some coroutine of the group is unfinished, any one of them takes the next step. Whatever is
   * picked, the outcomes come out in action order and depend on the world alone. `first` is the position of the
   * group's first action in the scenario.
   */
  method RunGroup(group: seq<Action>, first: nat, devices: map<nat, Device>, world: World)
    returns (outcomes: seq<ActionResult>)
    ensures |outcomes| == |group|
    ensures forall i :: 0 <= i < |group| ==>
      outcomes[i] == ActionResult(group[i].order, Succeeds(group[i], devices, world, first + i))
  {
    var runners := seq(|group|, i requires 0 <= i < |group| => Started(group[i], devices));
    while exists i :: 0 <= i < |runners| && runners[i].Running?
      invariant |runners| == |group|
      invariant forall i :: 0 <= i < |group| ==> RunnerInv(group[i], runners[i], devices, world, first + i)
      decreases Remaining(runners)
    {
      var i :| 0 <= i < |runners| && runners[i].Running?;
      var next := Resumed(group[i], runners[i], world(first + i, runners[i].asked));
      StepKeepsRunner(group[i], runners[i], devices, world, first + i);
      RemainingDrops(runners, i, next);
      runners := runners[i := next];
    }
    outcomes := seq(|group|, i requires 0 <= i < |group| => ActionResult(group[i].order, runners[i] == Finished(true)));
    forall i | 0 <= i < |group|
      ensures outcomes[i] == ActionResult(group[i].order, Succeeds(group[i], devices, world, first + i))
    {
      assert RunnerInv(group[i], runners[i], devices, world, first + i);
    }
  }

  lemma StepKeepsRunner(a: Action, r: Runner, devices: map<nat, Device>, world: World, k: nat)
    requires RunnerInv(a, r, devices, world, k) && r.Running?
    ensures RunnerInv(a, Resumed(a, r, world(k, r.asked)), devices, world, k)
    ensures r.asked < Devices.ATTEMPTS
  {
  }

  /**
   * Run by a scenario or by voice, a command is retried alike: a complete one for a stored device with a known adapter
   * works exactly when one of three attempts does. Any other device command fails.
   */
  lemma RetriesLikeControl(a: Action, devices: map<nat, Device>, world: World, k: nat)
    requires a.command.DeviceCommand?
    ensures Succeeds(a, devices, world, k) <==>
      && a.command.complete && a.device.Some? && a.device.value in devices && devices[a.device.value].adapterKnown
      && Devices.SomeAttemptWorks((n: nat) => Devices.Returned(Devices.CommandResult(world(k, n), "")))
  {
    var reply := (n: nat) => Devices.Returned(Devices.CommandResult(world(k, n), ""));
    assert forall n: nat :: Devices.ResultOf(reply(n)).ok == world(k, n);
  }

  /**
   * What makes the k-th action work: a device command needs everything in place and one good answer out of three; a
   * wait needs a number; an announcement a hub, a text and its delivery. Nothing else works.
   */
  predicate Works(a: Action, devices: map<nat, Device>, world: World, k: nat)
  {
    || (a.command.DeviceCommand? && a.command.complete && a.device.Some? && a.device.value in devices
        && devices[a.device.value].adapterKnown && exists n: nat :: n < 3 && world(k, n))
    || (a.command.Wait? && a.command.valid)
    || (a.command.Announce? && a.command.hub != "" && a.command.text != "" && world(k, 0))
  }

  lemma WorksIffSucceeds(a: Action, devices: map<nat, Device>, world: World, k: nat)
    ensures Works(a, devices, world, k) <==> Succeeds(a, devices, world, k)
  {
    if a.command.DeviceCommand? {
      assert world(k, 0) || world(k, 1) || world(k, 2) <==> exists n: nat :: n < 3 && world(k, n);
    }
  }

  // ---------- the whole scenario ----------

  /** The devices after the first `n` results have been written back in order. */
  function Written(devices: map<nat, Device>, actions: seq<Action>, oks: nat -> bool, n: nat): map<nat, Device>
    requires n <= |actions|
    ensures Written(devices, actions, oks, n).Keys == devices.Keys
  {
    if n == 0 then devices
    else
      var before := Written(devices, actions, oks, n - 1);
      var d := LoadedDevice(actions[n - 1], devices);
      if d.Some? then before[d.value := before[d.value].(online := oks(n - 1))] else before
  }

  /** Each device's flag is the outcome of the last action that loaded it; other devices keep theirs. */
  lemma {:induction false} OnlineIsLastOutcome(devices: map<nat, Device>, actions: seq<Action>,
                                                   oks: nat -> bool, n: nat, id: nat)
    requires n <= |actions| && id in devices
    ensures var r := Written(devices, actions, oks, n)[id];
      && r.adapterKnown == devices[id].adapterKnown
      && ((forall k :: 0 <= k < n ==> !Commands(actions[k], id)) ==> r == devices[id])
      && (forall k :: 0 <= k < n && LastUse(actions, n, id, k) ==> r.online == oks(k))
  {
    if n > 0 {
      OnlineIsLastOutcome(devices, actions, oks, n - 1, id);
    }
  }

  /** A device command for the given device, complete or not. */
  predicate Commands(a: Action, id: nat)
  {
    a.command.DeviceCommand? && a.device == Some(id)
  }

  /** The k-th of the first `n` actions is for the device and no later one is. */
  predicate LastUse(actions: seq<Action>, n: nat, id: nat, k: nat)
  {
    k < n <= |actions| && Commands(actions[k], id) && forall j :: k < j < n ==> !Commands(actions[j], id)
  }

  function Outcomes(actions: seq<Action>, devices: map<nat, Device>, world: World): nat -> bool
  {
    (k: nat) => k < |actions| && Succeeds(actions[k], devices, world, k)
  }

  lemma {:induction false} SameAvailability(devices: map<nat, Device>, actions: seq<Action>, oks: nat -> bool, n: nat,
                                                a: Action, world: World, k: nat)
    requires n <= |actions|
    ensures var w := Written(devices, actions, oks, n);
      && LoadedDevice(a, w) == LoadedDevice(a, devices)
      && (Succeeds(a, w, world, k) <==> Succeeds(a, devices, world, k))
  {
    if a.device.Some? && a.device.value in devices {
      OnlineIsLastOutcome(devices, actions, oks, n, a.device.value);
    }
  }

  lemma FlattenUpTo(groups: seq<seq<Action>>, g: nat, i: nat)
    requires g < |groups| && i < |groups[g]|
    ensures |Flatten(groups[..g])| + |groups[g]| == |Flatten(groups[..g + 1])| <= |Flatten(groups)|
    ensures Flatten(groups)[|Flatten(groups[..g])| + i] == groups[g][i]
  {
    assert groups[..g + 1] == groups[..g] + [groups[g]];
    FlattenSnoc(groups[..g], groups[g]);
    assert groups == groups[..g + 1] + groups[g + 1..];
    FlattenAppend(groups[..g + 1], groups[g + 1..]);
  }

  predicate AllReported(results: seq<ActionResult>, actions: seq<Action>, oks: nat -> bool)
  {
    |results| <= |actions| && forall k :: 0 <= k < |results| ==> results[k] == ActionResult(actions[k].order, oks(k))
  }

  lemma GroupIsSlice(groups: seq<seq<Action>>, actions: seq<Action>, g: nat)
    requires IsGrouping(groups, actions) && g < |groups|
    ensures var first := |Flatten(groups[..g])|;
      && first + |groups[g]| == |Flatten(groups[..g + 1])| <= |actions|
      && forall i :: 0 <= i < |groups[g]| ==> groups[g][i] == actions[first + i]
  {
    assert IsGroup(groups[g]);
    FlattenUpTo(groups, g, 0);
    forall i: nat | i < |groups[g]| ensures groups[g][i] == actions[|Flatten(groups[..g])| + i] {
      FlattenUpTo(groups, g, i);
    }
  }

  lemma GroupsCover(groups: seq<seq<Action>>, actions: seq<Action>)
    requires IsGrouping(groups, actions)
    ensures |Flatten(groups)| == |actions|
  {
  }

  lemma NothingWritten(devices: map<nat, Device>, actions: seq<Action>, oks: nat -> bool)
    ensures Written(devices, actions, oks, 0) == devices
  {
  }

  lemma SameOutcome(devices: map<nat, Device>, actions: seq<Action>, n: nat, world: World, k: nat)
    requires n <= |actions| && k < |actions|
    ensures var oks := Outcomes(actions, devices, world);
      oks(k) == Succeeds(actions[k], Written(devices, actions, oks, n), world, k)
  {
    SameAvailability(devices, actions, Outcomes(actions, devices, world), n, actions[k], world, k);
  }

  lemma WriteNext(devices: map<nat, Device>, actions: seq<Action>, oks: nat -> bool, n: nat)
    requires n < |actions|
    ensures var before := Written(devices, actions, oks, n);
      var d := LoadedDevice(actions[n], before);
      && (d.Some? ==> d.value in before)
      && Written(devices, actions, oks, n + 1) ==
         if d.Some? then before[d.value := before[d.value].(online := oks(n))] else before
  {
    SameAvailability(devices, actions, oks, n, actions[n], (k, m) => false, n);
  }

  lemma AllOutcomes(actions: seq<Action>, devices: map<nat, Device>, world: World)
    ensures forall k :: 0 <= k < |actions| ==>
      (Outcomes(actions, devices, world)(k) <==> Succeeds(actions[k], devices, world, k))
  {
  }

  class ScenarioRunner {
    var devices: map<nat, Device>

    constructor (devices: map<nat, Device>)
      ensures this.devices == devices
    {
      this.devices := devices;
    }

    /**
     * One result per action, in action order; each is the action's own outcome in the world, and each device ends
     * up with the outcome of the last action that loaded it, whatever the interleaving inside the groups.
     */
    method ExecuteScenario(actions: seq<Action>, world: World) returns (results: seq<ActionResult>, ok: bool)
      modifies this
      ensures |results| == |actions|
      ensures forall k :: 0 <= k < |actions| ==>
        results[k] == ActionResult(actions[k].order, Works(actions[k], old(devices), world, k))
      ensures ok <==> forall k :: 0 <= k < |actions| ==> Works(actions[k], old(devices), world, k)
      ensures devices.Keys == old(devices).Keys
      ensures forall id :: id in devices ==>
        && devices[id].adapterKnown == old(devices)[id].adapterKnown
        && ((forall k :: 0 <= k < |actions| ==> !Commands(actions[k], id)) ==> devices[id] == old(devices)[id])
        && forall k :: 0 <= k < |actions| && LastUse(actions, |actions|, id, k) ==> devices[id].online == results[k].ok
    {
      hide Succeeds, LoadedDevice, IsGrouping, Written, Outcomes, Works, Commands, LastUse;
      ghost var oks := Outcomes(actions, devices, world);
      NothingWritten(devices, actions, oks);
      var groups := GroupActions(actions);
      results := [];
      for g := 0 to |groups|
        invariant |results| == |Flatten(groups[..g])|
        invariant AllReported(results, actions, oks)
        invariant devices == Written(old(devices), actions, oks, |results|)
      {
        GroupIsSlice(groups, actions, g);
        var first := |results|;
        var outcomes := RunGroup(groups[g], first, devices, world);
        forall i | 0 <= i < |groups[g]|
          ensures outcomes[i] == ActionResult(actions[first + i].order, oks(first + i))
        {
          SameOutcome(old(devices), actions, first, world, first + i);
        }
        for i := 0 to |groups[g]|
          invariant |results| == first + i
          invariant AllReported(results, actions, oks)
          invariant devices == Written(old(devices), actions, oks, |results|)
        {
          WriteNext(old(devices), actions, oks, first + i);
          var d := LoadedDevice(groups[g][i], devices);
          if d.Some? {
            devices := devices[d.value := devices[d.value].(online := outcomes[i].ok)];
          }
          results := results + [outcomes[i]];
        }
      }
      assert groups[..|groups|] == groups;
      GroupsCover(groups, actions);
      AllOutcomes(actions, old(devices), world);
      forall k | 0 <= k < |actions|
        ensures Works(actions[k], old(devices), world, k) <==> Succeeds(actions[k], old(devices), world, k)
      {
        WorksIffSucceeds(actions[k], old(devices), world, k);
      }
      forall id | id in devices
        ensures devices[id].adapterKnown == old(devices)[id].adapterKnown
        ensures (forall k :: 0 <= k < |actions| ==> !Commands(actions[k], id)) ==> devices[id] == old(devices)[id]
        ensures forall k :: 0 <= k < |actions| && LastUse(actions, |actions|, id, k) ==>
          devices[id].online == results[k].ok
      {
        OnlineIsLastOutcome(old(devices), actions, oks, |actions|, id);
      }
      ok := forall k :: 0 <= k < |results| ==> results[k].ok;
    }
  }
}
