/**
 A pod as a program over the class Hub: every method runs the class and takes the step of
 the same name, so whatever the connections of a pod do, in the order of handler.go, the
 objects go through a run of the transition system and all its theorems hold of them.
 */
module PodProcess {
  import opened Routing
  import opened HubModel
  import opened ChatSystem
  import opened ChatTheorems
  import opened Hub
  import opened HubSimulation

  /** h is the hub of pod p in a reachable state of the whole system, under the names of n. */
  ghost predicate Linked(s: System, p: nat, h: Objects, n: Naming) {
    && Reachable(s) && Shape(s) && p in s.pods
    && WellFormed(h) && Simulates(h, s.pods[p].hub, n)
  }

  /** The state after a, if a is possible. */
  ghost function Next(s: System, a: Step): System {
    if Shape(s) && Enabled(s, a) then Apply(s, a) else s
  }

  // ----- steps of the whole system -----

  /** The step touches no hub state of pod p. */
  predicate LeavesHubAlone(a: Step, p: nat) {
    a.Local? && a.p == p ==>
      || a.step.JoinSubscribe? || a.step.SubReceive? || a.step.SubDrop? || a.step.SubEnd?
      || a.step.WriterWrite? || a.step.WriterFail? || a.step.WriterExit? || a.step.Finish?
  }

  lemma OtherStepLinks(s: System, p: nat, h: Objects, n: Naming, a: Step) returns (t: System)
    requires Linked(s, p, h, n) && Enabled(s, a) && LeavesHubAlone(a, p)
    ensures t == Next(s, a) && Linked(t, p, h, n)
  {
    t := Apply(s, a);
    StepReachable(s, a);
    HubStays(s, p, a);
  }

  lemma HubStays(s: System, p: nat, a: Step)
    requires Shape(s) && p in s.pods && Enabled(s, a) && LeavesHubAlone(a, p)
    ensures p in Apply(s, a).pods && Apply(s, a).pods[p].hub == s.pods[p].hub
  {
    if a.Local? && a.p == p {
      PodHubStays(s.pods[p], a);
    }
  }

  lemma PodHubStays(pod: Pod, a: Step)
    requires PodShape(pod) && a.Local? && PodEnabled(pod, a.step) && LeavesHubAlone(a, a.p)
    ensures PodApply(pod, a.step).hub == pod.hub
  {
  }

  lemma UpperBound(numbers: set<nat>) returns (n: nat)
    ensures forall i :: i in numbers ==> i < n
  {
    n := 0;
    if numbers != {} {
      var x :| x in numbers;
      var m := UpperBound(numbers - {x});
      n := if x < m then m else x + 1;
      forall i | i in numbers ensures i < n {
        assert i == x || i in numbers - {x};
      }
    }
  }

  // ----- steps of the pod's own hub -----

  lemma OwnStepLinks(s: System, p: nat, a: PodStep, h: Objects, n: Naming) returns (t: System)
    requires Reachable(s) && Shape(s) && p in s.pods && PodEnabled(s.pods[p], a)
    requires WellFormed(h) && Simulates(h, PodApply(s.pods[p], a).hub, n)
    ensures t == Next(s, Local(p, a)) && Linked(t, p, h, n)
  {
    t := Apply(s, Local(p, a));
    StepReachable(s, Local(p, a));
  }

  lemma DeregisterWellFormed(h: Objects, name: Bytes, c: Client)
    requires WellFormed(h)
    ensures WellFormed(Deregister(h, name, c))
  {
  }

  lemma LeaveLinks(s: System, p: nat, h: Objects, n: Naming, c: Client) returns (t: System)
    requires Linked(s, p, h, n) && c in n.clients && CanLeave(s.pods[p], n.clients[c])
    ensures t == Next(s, Local(p, LeaveRoom(n.clients[c])))
    ensures Linked(t, p, Deregister(h, s.pods[p].conns[n.clients[c]].room, c), n)
  {
    var name := s.pods[p].conns[n.clients[c]].room;
    DeregisterWellFormed(h, name, c);
    LeaveSimulated(h, s.pods[p].hub, n, name, c);
    t := OwnStepLinks(s, p, LeaveRoom(n.clients[c]), Deregister(h, name, c), n);
  }

  lemma CloseLinks(s: System, p: nat, h: Objects, n: Naming, c: Client) returns (t: System)
    requires Linked(s, p, h, n) && c in n.clients && CanClose(s.pods[p], n.clients[c])
    ensures c in h.sends && t == Next(s, Local(p, CloseChannel(n.clients[c])))
    ensures Linked(t, p, CloseSend(h, c), n)
  {
    CloseSimulated(h, s.pods[p].hub, n, c);
    t := OwnStepLinks(s, p, CloseChannel(n.clients[c]), CloseSend(h, c), n);
  }

  lemma BroadcastLinks(s: System, p: nat, h: Objects, n: Naming, r: Room) returns (t: System)
    requires Linked(s, p, h, n) && r in n.rooms && CanBroadcast(s.pods[p], n.rooms[r])
    ensures r in h.members && t == Next(s, Local(p, SubBroadcast(n.rooms[r])))
    ensures Linked(t, p, Broadcast(h, r, n.marshal(s.pods[p].subs[n.rooms[r]].hand.value.msg)), n)
  {
    var e := s.pods[p].subs[n.rooms[r]].hand.value;
    BroadcastSimulated(h, s.pods[p].hub, n, r, e);
    t := OwnStepLinks(s, p, SubBroadcast(n.rooms[r]), Broadcast(h, r, n.marshal(e.msg)), n);
  }

  lemma TakeLinks(s: System, p: nat, h: Objects, n: Naming, c: Client) returns (t: System)
    requires Linked(s, p, h, n) && c in n.clients && CanTake(s.pods[p], n.clients[c])
    ensures c in h.sends && h.sends[c].buffer != []
    ensures h.sends[c].buffer[0] == n.marshal(s.pods[p].hub.sends[n.clients[c]].buffer[0].msg)
    ensures t == Next(s, Local(p, WriterTake(n.clients[c]))) && Linked(t, p, TakeFirst(h, c), n)
  {
    TakeSimulated(h, s.pods[p].hub, n, c);
    t := OwnStepLinks(s, p, WriterTake(n.clients[c]), TakeFirst(h, c), n);
  }

  /** The names after a join. */
  function Named(n: Naming, c: Client, i: nat, opens: bool, r: Room, k: nat): Naming {
    n.(clients := n.clients[c := i], rooms := if opens then n.rooms[r := k] else n.rooms)
  }

  lemma JoinLinks(s: System, p: nat, h: Objects, n: Naming, name: Bytes, c: Client, i: nat, r: Room, k: nat)
    returns (t: System)
    requires Linked(s, p, h, n) && CanRegister(s.pods[p], i, name, k) && c !in n.clients
    requires name !in h.rooms ==> r !in n.rooms && r !in h.cancelled && k !in s.pods[p].hub.cancelled
    ensures WellFormed(OpenClient(h, c, SEND_CAPACITY))
    ensures t == Next(s, Local(p, JoinRegister(i, name, k)))
    ensures Linked(t, p, Register(OpenClient(h, c, SEND_CAPACITY), name, c, r), Named(n, c, i, name !in h.rooms, r, k))
  {
    JoinMatchesStep(h, s.pods[p], n, name, c, i, r, k);
    var h' := OpenClient(h, c, SEND_CAPACITY);
    RegisterWellFormed(h', name, c, r);
    t := OwnStepLinks(s, p, JoinRegister(i, name, k), Register(h', name, c, r), Named(n, c, i, name !in h.rooms, r, k));
  }

  lemma RegisterWellFormed(h: Objects, name: Bytes, c: Client, r: Room)
    requires WellFormed(h) && c in h.sends
    ensures WellFormed(Register(h, name, c, r))
  {
  }

  // ----- runs -----

  /** The objects of a pod and their names at one moment. */
  datatype Snapshot = Snapshot(hub: Objects, names: Naming)

  /**
   What the class does when the whole system takes step a: the function its method is
   specified by, for an object with the number in the step; nothing for a step elsewhere.
   */
  ghost predicate Follows(s: System, p: nat, x: Snapshot, a: Step, y: Snapshot)
    requires Shape(s) && p in s.pods && Enabled(s, a) && WellFormed(x.hub)
  {
    var h, n := x.hub, x.names;
    if LeavesHubAlone(a, p) then y == x
    else
      match a.step
      case JoinRegister(i, name, k) =>
        exists c, r :: c in y.names.clients && r in y.names.rooms && Joins(x, y, i, name, k, c, r)
      case LeaveRoom(i) =>
        y.names == n && exists c :: c in n.clients && n.clients[c] == i
                                    && y.hub == Deregister(h, s.pods[p].conns[i].room, c)
      case CloseChannel(i) =>
        y.names == n && exists c :: c in n.clients && n.clients[c] == i && c in h.sends && y.hub == CloseSend(h, c)
      case SubBroadcast(k) =>
        y.names == n && exists r :: r in n.rooms && n.rooms[r] == k && r in h.members
                                    && y.hub == Broadcast(h, r, n.marshal(s.pods[p].subs[k].hand.value.msg))
      case WriterTake(i) =>
        y.names == n && exists c :: c in n.clients && n.clients[c] == i && c in h.sends && h.sends[c].buffer != []
                                    && y.hub == TakeFirst(h, c)
      case _ => true
  }

  /** A new client joins; r is its room object, a new one if the name is free. */
  ghost predicate Joins(x: Snapshot, y: Snapshot, i: nat, name: Bytes, k: nat, c: Client, r: Room) {
    && WellFormed(x.hub) && WellFormed(OpenClient(x.hub, c, SEND_CAPACITY)) && c !in x.names.clients
    && (name !in x.hub.rooms ==> r !in x.names.rooms && r !in x.hub.cancelled)
    && y.hub == Register(OpenClient(x.hub, c, SEND_CAPACITY), name, c, r)
    && y.names == Named(x.names, c, i, name !in x.hub.rooms, r, k)
  }

  lemma NumbersOfRoomsAreNew(s: System, p: nat, k: nat)
    requires Reachable(s) && p in s.pods && k !in s.pods[p].subs
    ensures k !in s.pods[p].hub.cancelled
  {
    ReachableHub(s, p);
  }

  lemma FollowingLinks(s: System, p: nat, x: Snapshot, a: Step, y: Snapshot)
    requires Linked(s, p, x.hub, x.names) && Enabled(s, a) && Follows(s, p, x, a, y)
    ensures Linked(Apply(s, a), p, y.hub, y.names)
  {
    if LeavesHubAlone(a, p) {
      var t := OtherStepLinks(s, p, x.hub, x.names, a);
    } else {
      OwnFollowingLinks(s, p, x, a.step, y);
    }
  }

  lemma OwnFollowingLinks(s: System, p: nat, x: Snapshot, a: PodStep, y: Snapshot)
    requires Linked(s, p, x.hub, x.names) && Enabled(s, Local(p, a)) && !LeavesHubAlone(Local(p, a), p)
    requires Follows(s, p, x, Local(p, a), y)
    ensures Linked(Apply(s, Local(p, a)), p, y.hub, y.names)
  {
    var h, n := x.hub, x.names;
    match a
    case JoinRegister(i, name, k) =>
      var c, r :| c in y.names.clients && r in y.names.rooms && Joins(x, y, i, name, k, c, r);
      NumbersOfRoomsAreNew(s, p, k);
      var t := JoinLinks(s, p, h, n, name, c, i, r, k);
    case LeaveRoom(i) =>
      var c :| c in n.clients && n.clients[c] == i && y.hub == Deregister(h, s.pods[p].conns[i].room, c);
      var t := LeaveLinks(s, p, h, n, c);
    case CloseChannel(i) =>
      var c :| c in n.clients && n.clients[c] == i && c in h.sends && y.hub == CloseSend(h, c);
      var t := CloseLinks(s, p, h, n, c);
    case SubBroadcast(k) =>
      var r :| r in n.rooms && n.rooms[r] == k && r in h.members
               && y.hub == Broadcast(h, r, n.marshal(s.pods[p].subs[k].hand.value.msg));
      var t := BroadcastLinks(s, p, h, n, r);
    case WriterTake(i) =>
      var c :| c in n.clients && n.clients[c] == i && c in h.sends && h.sends[c].buffer != []
               && y.hub == TakeFirst(h, c);
      var t := TakeLinks(s, p, h, n, c);
    case _ =>
  }

  /** The class follows a run of the whole system from snapshot to snapshot. */
  ghost predicate Accompanies(s: System, steps: seq<Step>, t: System, p: nat, x: Snapshot, ys: seq<Snapshot>)
    requires Executes(s, steps, t)
    decreases steps
  {
    && |ys| == |steps|
    && (steps != [] ==>
          && p in s.pods && WellFormed(x.hub) && Follows(s, p, x, steps[0], ys[0])
          && Accompanies(Apply(s, steps[0]), steps[1..], t, p, ys[0], ys[1..]))
  }

  /** The last snapshot. */
  function Final(x: Snapshot, ys: seq<Snapshot>): Snapshot
    decreases |ys|
  {
    if ys == [] then x else Final(ys[0], ys[1..])
  }

  /**
   Over every run of the system, the objects of a pod that follow it stand for the pod at
   the end as they did at the beginning: in particular from a new hub on.
   */
  lemma {:induction false} RunIsSimulated(s: System, steps: seq<Step>, t: System, p: nat,
                                          x: Snapshot, ys: seq<Snapshot>)
    requires Linked(s, p, x.hub, x.names) && Executes(s, steps, t) && Accompanies(s, steps, t, p, x, ys)
    ensures Linked(t, p, Final(x, ys).hub, Final(x, ys).names)
    decreases steps
  {
    if steps != [] {
      FollowingLinks(s, p, x, steps[0], ys[0]);
      RunIsSimulated(Apply(s, steps[0]), steps[1..], t, p, ys[0], ys[1..]);
    }
  }

  /** A new hub of objects stands for a pod at the start. */
  lemma NewHubLinks(s: System, p: nat, marshal: Message -> Bytes)
    requires Init(s) && p in s.pods
    ensures Linked(s, p, HubState(map[], map[], {}, map[]), Naming(map[], map[], marshal))
  {
    InitInv(s);
    assert Executes(s, [], s);
    NewHubMatchesEmptyPod(marshal);
  }

  // ----- the methods of a pod -----

  /** A new hub. */
  method Start(p: nat, ghost s: System, ghost marshal: Message -> Bytes) returns (hub: Hub, ghost n: Naming)
    requires Init(s) && p in s.pods
    ensures hub.Valid() && Linked(s, p, hub.View(), n) && fresh(hub) && n == Naming(map[], map[], marshal)
  {
    hub := new Hub();
    n := Naming(map[], map[], marshal);
    NewHubLinks(s, p, marshal);
  }

  /** A new connection: make(chan []byte, 16) and join; r is the room object, opened if isNew. */
  method Join(hub: Hub, p: nat, ghost s: System, ghost n: Naming, name: Bytes)
    returns (c: Client, r: Room, isNew: bool, ghost i: nat, ghost k: nat, ghost t: System, ghost n': Naming)
    requires hub.Valid() && Linked(s, p, hub.View(), n) && name != []
    modifies hub`allClients, hub`rooms, hub`allRooms, hub.rooms.Values`clients
    ensures hub.Valid() && Linked(t, p, hub.View(), n') && fresh(c)
    ensures t == Next(s, Local(p, JoinRegister(i, name, k))) && n' == Named(n, c, i, isNew, r, k)
  {
    i := UpperBound(s.pods[p].conns.Keys);
    k := UpperBound(s.pods[p].subs.Keys + s.pods[p].hub.cancelled);
    ghost var h := hub.View();
    c := hub.NewClient(SEND_CAPACITY);
    assert c in hub.View().sends;
    r, isNew := hub.Join(name, c);
    t := JoinLinks(s, p, h, n, name, c, i, r, k);
    n' := Named(n, c, i, isNew, r, k);
  }

  method Leave(hub: Hub, p: nat, ghost s: System, ghost n: Naming, name: Bytes, c: Client) returns (ghost t: System)
    requires hub.Valid() && Linked(s, p, hub.View(), n)
    requires c in n.clients && CanLeave(s.pods[p], n.clients[c]) && name == s.pods[p].conns[n.clients[c]].room
    modifies hub`rooms, hub.rooms.Values
    ensures hub.Valid() && Linked(t, p, hub.View(), n) && t == Next(s, Local(p, LeaveRoom(n.clients[c])))
  {
    t := LeaveLinks(s, p, hub.View(), n, c);
    hub.Leave(name, c);
  }

  /** close(c.send): that the channel is still open follows from where the connection is. */
  method Close(hub: Hub, p: nat, ghost s: System, ghost n: Naming, c: Client) returns (ghost t: System)
    requires hub.Valid() && Linked(s, p, hub.View(), n)
    requires c in n.clients && CanClose(s.pods[p], n.clients[c])
    modifies c`closed
    ensures hub.Valid() && Linked(t, p, hub.View(), n) && t == Next(s, Local(p, CloseChannel(n.clients[c])))
  {
    ReachableHubIsSafe(s, p, hub.View(), n);
    t := CloseLinks(s, p, hub.View(), n, c);
    hub.CloseClient(c);
  }

  /** The callback with the message in hand: that no channel in the room is closed follows from reachability. */
  method Deliver(hub: Hub, p: nat, ghost s: System, ghost n: Naming, r: Room, payload: Bytes) returns (ghost t: System)
    requires hub.Valid() && Linked(s, p, hub.View(), n)
    requires r in n.rooms && CanBroadcast(s.pods[p], n.rooms[r])
    requires payload == n.marshal(s.pods[p].subs[n.rooms[r]].hand.value.msg)
    modifies r.clients`buffer
    ensures hub.Valid() && Linked(t, p, hub.View(), n) && t == Next(s, Local(p, SubBroadcast(n.rooms[r])))
  {
    ReachableHubIsSafe(s, p, hub.View(), n);
    t := BroadcastLinks(s, p, hub.View(), n, r);
    hub.BroadcastLocalRoom(r, payload);
  }

  /** The writer receives, on an open channel or a closed one, the message the transition system says. */
  method Receive(hub: Hub, p: nat, ghost s: System, ghost n: Naming, c: Client)
    returns (payload: Bytes, ghost t: System)
    requires hub.Valid() && Linked(s, p, hub.View(), n)
    requires c in n.clients && CanTake(s.pods[p], n.clients[c])
    modifies c`buffer
    ensures hub.Valid() && Linked(t, p, hub.View(), n) && t == Next(s, Local(p, WriterTake(n.clients[c])))
    ensures payload == n.marshal(s.pods[p].hub.sends[n.clients[c]].buffer[0].msg)
  {
    t := TakeLinks(s, p, hub.View(), n, c);
    payload := hub.ReceiveFrom(c);
  }
}
