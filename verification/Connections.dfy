/** The hub connection map, over interleaved socket lifetimes. */
module Connections {
  import opened Text

  type Hub = string
  type Socket = nat

  function Registered(m: map<Hub, Socket>, hub: Hub, socket: Socket): map<Hub, Socket>
  {
    m[hub := socket]
  }

  function Unregistered(m: map<Hub, Socket>, hub: Hub, socket: Socket): map<Hub, Socket>
  {
    if hub in m && m[hub] == socket then m - {hub} else m
  }

  class HubConnectionManager {
    var connections: map<Hub, Socket>

    constructor ()
      ensures connections == map[]
    {
      connections := map[];
    }

    method Register(hub: Hub, socket: Socket)
      modifies this
      ensures connections == Registered(old(connections), hub, socket)
    {
      connections := connections[hub := socket];
    }

    /** Only the socket that holds the hub's place gives it up. */
    method Unregister(hub: Hub, socket: Socket)
      modifies this
      ensures connections == Unregistered(old(connections), hub, socket)
    {
      if hub in connections && connections[hub] == socket {
        connections := connections - {hub};
      }
    }

    function Get(hub: Hub): Option<Socket>
      reads this
    {
      if hub in connections then Some(connections[hub]) else None
    }
  }

  datatype Event = Open(hub: Hub, socket: Socket) | Close(hub: Hub, socket: Socket)

  /** The map after a run of registrations and closes, in whatever order the sockets interleave. */
  function After(events: seq<Event>): map<Hub, Socket>
  {
    if events == [] then map[]
    else
      var m := After(events[..|events| - 1]);
      match events[|events| - 1]
      case Open(hub, socket) => Registered(m, hub, socket)
      case Close(hub, socket) => Unregistered(m, hub, socket)
  }

  /** The i-th event registers the socket; since then no socket took the hub over and this one was not closed. */
  predicate Holds(events: seq<Event>, i: nat, hub: Hub, socket: Socket)
  {
    && i < |events| && events[i] == Open(hub, socket)
    && forall j :: i < j < |events| ==> !(events[j].Open? && events[j].hub == hub) && events[j] != Close(hub, socket)
  }

  ghost predicate Held(events: seq<Event>, hub: Hub, socket: Socket)
  {
    exists i: nat :: Holds(events, i, hub, socket)
  }

  lemma HeldSnoc(events: seq<Event>, e: Event, hub: Hub, socket: Socket)
    ensures Held(events + [e], hub, socket) <==>
      || e == Open(hub, socket)
      || (Held(events, hub, socket) && !(e.Open? && e.hub == hub) && e != Close(hub, socket))
  {
    var more := events + [e];
    if e == Open(hub, socket) {
      assert Holds(more, |events|, hub, socket);
    }
    if i: nat :| Holds(events, i, hub, socket) {
      if !(e.Open? && e.hub == hub) && e != Close(hub, socket) {
        assert Holds(more, i, hub, socket);
      }
    }
    if i: nat :| Holds(more, i, hub, socket) && i < |events| {
      assert more[|events|] == e;
      assert forall j :: 0 <= j < |events| ==> more[j] == events[j];
      assert Holds(events, i, hub, socket);
    }
  }

  /**
   * In every run a hub maps to a socket exactly when that socket is the last to have registered for the hub and has
   * not been closed since.
   */
  lemma {:induction false} MapsToTheLastOpenSocket(events: seq<Event>, hub: Hub, socket: Socket)
    ensures hub in After(events) && After(events)[hub] == socket <==> Held(events, hub, socket)
  {
    if events != [] {
      var n := |events| - 1;
      MapsToTheLastOpenSocket(events[..n], hub, socket);
      HeldSnoc(events[..n], events[n], hub, socket);
      assert events == events[..n] + [events[n]];
    }
  }

  /** A push goes to that socket and to no other. */
  lemma GetFindsTheLastOpenSocket(manager: HubConnectionManager, events: seq<Event>, hub: Hub, socket: Socket)
    requires manager.connections == After(events)
    ensures manager.Get(hub) == Some(socket) <==> Held(events, hub, socket)
  {
    MapsToTheLastOpenSocket(events, hub, socket);
  }

  /** Every socket serves one hub, is registered once and closed at most once, after that. */
  predicate Lifetimes(events: seq<Event>)
  {
    && (forall i, j :: 0 <= i < j < |events| && events[i].Open? && events[j].Open? ==>
          events[i].socket != events[j].socket)
    && (forall j :: 0 <= j < |events| && events[j].Close? ==> OpenedBefore(events, j))
  }

  predicate OpenedBefore(events: seq<Event>, j: nat)
    requires j < |events|
  {
    exists i :: 0 <= i < j && events[i] == Open(events[j].hub, events[j].socket)
  }

  /** For such lifetimes "since" can be dropped: the hub's latest socket is reachable until it is closed. */
  lemma {:induction false} LatestUntilClosed(events: seq<Event>, i: nat)
    requires Lifetimes(events) && i < |events| && events[i].Open?
    requires forall j :: i < j < |events| ==> !(events[j].Open? && events[j].hub == events[i].hub)
    ensures var hub, socket := events[i].hub, events[i].socket;
      hub in After(events) && After(events)[hub] == socket <==> Close(hub, socket) !in events
  {
    var hub, socket := events[i].hub, events[i].socket;
    MapsToTheLastOpenSocket(events, hub, socket);
    if Close(hub, socket) in events {
      var j :| 0 <= j < |events| && events[j] == Close(hub, socket);
      assert OpenedBefore(events, j);
      var k :| 0 <= k < j && events[k] == Open(hub, socket);
      forall m: nat ensures !Holds(events, m, hub, socket) {
        if m < |events| && events[m] == Open(hub, socket) {
          assert m == i && k == i;
        }
      }
    } else {
      assert Holds(events, i, hub, socket);
    }
  }

  /** The close of a replaced socket, however late, changes nothing. */
  lemma {:induction false} LateCloseIsHarmless(events: seq<Event>, i: nat, k: nat)
    requires i < k < |events| && events[i].Open? && events[k].Open? && events[k].hub == events[i].hub
    requires forall j :: k <= j < |events| ==> events[j] != Open(events[i].hub, events[i].socket)
    ensures After(events + [Close(events[i].hub, events[i].socket)]) == After(events)
  {
    var hub, socket := events[i].hub, events[i].socket;
    MapsToTheLastOpenSocket(events, hub, socket);
    forall m: nat ensures !Holds(events, m, hub, socket) {
      if m < |events| && events[m] == Open(hub, socket) {
        assert m < k;
      }
    }
    assert (events + [Close(hub, socket)])[..|events|] == events;
  }
}
