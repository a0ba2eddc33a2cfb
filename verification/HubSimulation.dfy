/**
 The class Hub and the pods of ChatSystem use the functions of HubModel at different
 types. Naming room objects and clients by numbers, one to one, commutes with every
 operation: a hub of real objects takes, method by method, the steps of a pod.
 */
module HubSimulation {
  import opened Routing
  import opened HubModel
  import opened ChatSystem
  import opened ChatInvariant
  import ChatTheorems
  import opened Hub

  /** The number of each object in the transition system, and the wire format of a message. */
  datatype Naming = Naming(rooms: map<Room, nat>, clients: map<Client, nat>, marshal: Message -> Bytes)

  type Objects = HubState<Room, Client, Bytes>
  type Numbers = HubState<nat, nat, Entry>

  ghost predicate OneToOne(n: Naming) {
    && (forall r, s :: r in n.rooms && s in n.rooms && n.rooms[r] == n.rooms[s] ==> r == s)
    && (forall c, d :: c in n.clients && d in n.clients && n.clients[c] == n.clients[d] ==> c == d)
  }

  ghost predicate SameChan(a: Chan<Bytes>, b: Chan<Entry>, marshal: Message -> Bytes) {
    && a.capacity == b.capacity && a.closed == b.closed && |a.buffer| == |b.buffer|
    && forall i :: 0 <= i < |a.buffer| ==> a.buffer[i] == marshal(b.buffer[i].msg)
  }

  ghost predicate SameMembers(a: set<Client>, b: set<nat>, n: Naming) {
    && a <= n.clients.Keys && b <= n.clients.Values
    && forall c :: c in n.clients ==> (c in a <==> n.clients[c] in b)
  }

  ghost predicate SameKeys(h: Objects, g: Numbers, n: Naming) {
    && h.members.Keys == n.rooms.Keys && g.members.Keys == n.rooms.Values
    && h.sends.Keys == n.clients.Keys && g.sends.Keys == n.clients.Values
  }

  ghost predicate SameRooms(h: Objects, g: Numbers, n: Naming) {
    && g.rooms.Keys == h.rooms.Keys
    && (forall name :: name in h.rooms ==> h.rooms[name] in n.rooms && g.rooms[name] == n.rooms[h.rooms[name]])
    && (forall r :: r in n.rooms ==> (r in h.cancelled <==> n.rooms[r] in g.cancelled))
  }

  ghost predicate SameRosters(h: Objects, g: Numbers, n: Naming) {
    forall r :: r in n.rooms ==>
      r in h.members && n.rooms[r] in g.members && SameMembers(h.members[r], g.members[n.rooms[r]], n)
  }

  ghost predicate SameChans(h: Objects, g: Numbers, n: Naming) {
    forall c :: c in n.clients ==>
      c in h.sends && n.clients[c] in g.sends && SameChan(h.sends[c], g.sends[n.clients[c]], n.marshal)
  }

  /** g is h with numbers for objects and log entries for payloads. */
  ghost predicate Simulates(h: Objects, g: Numbers, n: Naming) {
    OneToOne(n) && SameKeys(h, g, n) && SameRooms(h, g, n) && SameRosters(h, g, n) && SameChans(h, g, n)
  }

  lemma EmptyTogether(a: set<Client>, b: set<nat>, n: Naming)
    requires SameMembers(a, b, n)
    ensures a == {} <==> b == {}
  {
    if b != {} {
      var i :| i in b;
      assert i in n.clients.Values;
      var c :| c in n.clients && n.clients[c] == i;
    }
    if a != {} {
      var c :| c in a;
    }
  }

  // ----- leave -----

  /** Changing the clients of one room object on both sides. */
  lemma RosterChange(h: Objects, g: Numbers, n: Naming, r: Room, a: set<Client>, b: set<nat>)
    requires OneToOne(n) && SameKeys(h, g, n) && SameRosters(h, g, n) && r in n.rooms && SameMembers(a, b, n)
    ensures var h', g' := h.(members := h.members[r := a]), g.(members := g.members[n.rooms[r] := b]);
            SameKeys(h', g', n) && SameRosters(h', g', n)
  {
    var h', g' := h.(members := h.members[r := a]), g.(members := g.members[n.rooms[r] := b]);
    forall s | s in n.rooms ensures SameMembers(h'.members[s], g'.members[n.rooms[s]], n) {
      assert SameMembers(h.members[s], g.members[n.rooms[s]], n);
    }
  }

  lemma LeaveRosters(h: Objects, g: Numbers, n: Naming, name: Bytes, c: Client)
    requires WellFormed(h) && WellFormed(g) && OneToOne(n) && SameKeys(h, g, n) && SameRosters(h, g, n)
    requires name in h.rooms && name in g.rooms && h.rooms[name] in n.rooms && g.rooms[name] == n.rooms[h.rooms[name]]
    requires c in n.clients
    ensures SameRosters(Deregister(h, name, c), Deregister(g, name, n.clients[c]), n)
    ensures SameKeys(Deregister(h, name, c), Deregister(g, name, n.clients[c]), n)
  {
    var r := h.rooms[name];
    assert SameMembers(h.members[r], g.members[n.rooms[r]], n);
    MemberLeaves(h.members[r], g.members[n.rooms[r]], n, c);
    RosterChange(h, g, n, r, h.members[r] - {c}, g.members[n.rooms[r]] - {n.clients[c]});
  }

  lemma MemberLeaves(a: set<Client>, b: set<nat>, n: Naming, c: Client)
    requires OneToOne(n) && SameMembers(a, b, n) && c in n.clients
    ensures SameMembers(a - {c}, b - {n.clients[c]}, n)
  {
  }

  lemma LeaveRooms(h: Objects, g: Numbers, n: Naming, name: Bytes, c: Client)
    requires WellFormed(h) && WellFormed(g) && Simulates(h, g, n) && c in n.clients
    ensures SameRooms(Deregister(h, name, c), Deregister(g, name, n.clients[c]), n)
  {
    if name in h.rooms {
      var r := h.rooms[name];
      EmptyTogether(h.members[r] - {c}, g.members[n.rooms[r]] - {n.clients[c]}, n);
    }
  }

  lemma LeaveSimulated(h: Objects, g: Numbers, n: Naming, name: Bytes, c: Client)
    requires WellFormed(h) && WellFormed(g) && Simulates(h, g, n) && c in n.clients
    ensures Simulates(Deregister(h, name, c), Deregister(g, name, n.clients[c]), n)
  {
    if name in h.rooms {
      LeaveRosters(h, g, n, name, c);
      LeaveRooms(h, g, n, name, c);
      assert Deregister(h, name, c).sends == h.sends && Deregister(g, name, n.clients[c]).sends == g.sends;
    }
  }

  // ----- broadcast and close -----

  lemma BroadcastChans(h: Objects, g: Numbers, n: Naming, r: Room, e: Entry)
    requires SameChans(h, g, n) && r in h.members && r in n.rooms && n.rooms[r] in g.members
    requires SameMembers(h.members[r], g.members[n.rooms[r]], n)
    ensures SameChans(Broadcast(h, r, n.marshal(e.msg)), Broadcast(g, n.rooms[r], e), n)
  {
    forall c | c in n.clients
      ensures SameChan(Offer(h.sends[c], n.marshal(e.msg)), Offer(g.sends[n.clients[c]], e), n.marshal)
    {
      assert SameChan(h.sends[c], g.sends[n.clients[c]], n.marshal);
    }
  }

  lemma BroadcastSimulated(h: Objects, g: Numbers, n: Naming, r: Room, e: Entry)
    requires WellFormed(h) && WellFormed(g) && Simulates(h, g, n) && r in n.rooms
    ensures Simulates(Broadcast(h, r, n.marshal(e.msg)), Broadcast(g, n.rooms[r], e), n)
  {
    assert SameMembers(h.members[r], g.members[n.rooms[r]], n);
    BroadcastChans(h, g, n, r, e);
  }

  lemma CloseSimulated(h: Objects, g: Numbers, n: Naming, c: Client)
    requires Simulates(h, g, n) && c in n.clients
    ensures Simulates(CloseSend(h, c), CloseSend(g, n.clients[c]), n)
  {
    var h', g' := CloseSend(h, c), CloseSend(g, n.clients[c]);
    forall d | d in n.clients ensures SameChan(h'.sends[d], g'.sends[n.clients[d]], n.marshal) {
      assert SameChan(h.sends[d], g.sends[n.clients[d]], n.marshal);
    }
  }

  /** The writer's receive, on a channel that may still be open. */
  lemma TakeSimulated(h: Objects, g: Numbers, n: Naming, c: Client)
    requires Simulates(h, g, n) && c in n.clients && g.sends[n.clients[c]].buffer != []
    ensures c in h.sends && h.sends[c].buffer != []
    ensures h.sends[c].buffer[0] == n.marshal(g.sends[n.clients[c]].buffer[0].msg)
    ensures Simulates(TakeFirst(h, c), TakeFirst(g, n.clients[c]), n)
  {
    assert SameChan(h.sends[c], g.sends[n.clients[c]], n.marshal);
    TakeChans(h, g, n, c);
  }

  lemma TakeChans(h: Objects, g: Numbers, n: Naming, c: Client)
    requires OneToOne(n) && SameChans(h, g, n) && c in n.clients
    requires g.sends[n.clients[c]].buffer != [] && h.sends[c].buffer != []
    ensures SameChans(TakeFirst(h, c), TakeFirst(g, n.clients[c]), n)
  {
    forall d | d in n.clients
      ensures SameChan(TakeFirst(h, c).sends[d], TakeFirst(g, n.clients[c]).sends[n.clients[d]], n.marshal)
    {
      assert SameChan(h.sends[d], g.sends[n.clients[d]], n.marshal);
    }
  }

  // ----- join -----

  lemma ExtendValues<X>(m: map<X, nat>, x: X, i: nat)
    requires x !in m
    ensures m[x := i].Values == m.Values + {i}
  {
    var m' := m[x := i];
    forall j | j in m.Values + {i} ensures j in m'.Values {
      if j == i {
        assert m'[x] == i;
      } else {
        var y :| y in m && m[y] == j;
        assert m'[y] == j;
      }
    }
  }

  lemma OpenRosters(h: Objects, g: Numbers, n: Naming, c: Client, i: nat)
    requires WellFormed(h) && SameKeys(h, g, n) && SameRosters(h, g, n) && c !in n.clients && i !in n.clients.Values
    ensures SameRosters(h, g, n.(clients := n.clients[c := i]))
  {
    var n' := n.(clients := n.clients[c := i]);
    ExtendValues(n.clients, c, i);
    forall r | r in n.rooms
      ensures r in h.members && n.rooms[r] in g.members && SameMembers(h.members[r], g.members[n.rooms[r]], n')
    {
      assert SameMembers(h.members[r], g.members[n.rooms[r]], n);
    }
  }

  lemma OpenChans(h: Objects, g: Numbers, n: Naming, c: Client, i: nat, capacity: nat)
    requires SameChans(h, g, n) && c !in n.clients && i !in n.clients.Values
    ensures SameChans(OpenClient(h, c, capacity), OpenClient(g, i, capacity), n.(clients := n.clients[c := i]))
  {
    forall d | d in n.clients ensures n.clients[d] != i {
      assert n.clients[d] in n.clients.Values;
    }
  }

  lemma OpenNaming(n: Naming, c: Client, i: nat)
    requires OneToOne(n) && c !in n.clients && i !in n.clients.Values
    ensures OneToOne(n.(clients := n.clients[c := i]))
  {
    forall d | d in n.clients ensures n.clients[d] != i {
      assert n.clients[d] in n.clients.Values;
    }
  }

  lemma OpenKeys(h: Objects, g: Numbers, n: Naming, c: Client, i: nat, capacity: nat)
    requires SameKeys(h, g, n) && c !in n.clients
    ensures SameKeys(OpenClient(h, c, capacity), OpenClient(g, i, capacity), n.(clients := n.clients[c := i]))
  {
    ExtendValues(n.clients, c, i);
  }

  lemma OpenWellFormed<R, C, P>(h: HubState<R, C, P>, c: C, capacity: nat)
    requires WellFormed(h)
    ensures WellFormed(OpenClient(h, c, capacity))
  {
  }

  /** A new client. */
  lemma OpenSimulated(h: Objects, g: Numbers, n: Naming, c: Client, i: nat, capacity: nat)
    requires WellFormed(h) && Simulates(h, g, n) && c !in n.clients && i !in n.clients.Values
    ensures Simulates(OpenClient(h, c, capacity), OpenClient(g, i, capacity), n.(clients := n.clients[c := i]))
  {
    OpenNaming(n, c, i);
    OpenKeys(h, g, n, c, i, capacity);
    OpenRosters(h, g, n, c, i);
    OpenChans(h, g, n, c, i, capacity);
  }

  /** Entering a room that exists. */
  lemma JoinOldSimulated(h: Objects, g: Numbers, n: Naming, name: Bytes, c: Client, r: Room, k: nat)
    requires WellFormed(h) && WellFormed(g) && Simulates(h, g, n) && c in n.clients && name in h.rooms
    ensures Simulates(Register(h, name, c, r), Register(g, name, n.clients[c], k), n)
  {
    var s := h.rooms[name];
    assert SameMembers(h.members[s], g.members[n.rooms[s]], n);
    RosterChange(h, g, n, s, h.members[s] + {c}, g.members[n.rooms[s]] + {n.clients[c]});
  }

  lemma NewRoomRosters(h: Objects, g: Numbers, n: Naming, c: Client, r: Room, k: nat)
    requires SameRosters(h, g, n) && c in n.clients && r !in n.rooms && k !in n.rooms.Values
    requires OneToOne(n)
    ensures SameRosters(h.(members := h.members[r := {c}]), g.(members := g.members[k := {n.clients[c]}]),
                        n.(rooms := n.rooms[r := k]))
  {
    var n' := n.(rooms := n.rooms[r := k]);
    forall s | s in n.rooms ensures n.rooms[s] != k && SameMembers(h.members[s], g.members[n.rooms[s]], n') {
      assert n.rooms[s] in n.rooms.Values;
      assert SameMembers(h.members[s], g.members[n.rooms[s]], n);
    }
    assert SameMembers({c}, {n.clients[c]}, n');
  }

  lemma NewRoomOneToOne(n: Naming, r: Room, k: nat)
    requires OneToOne(n) && r !in n.rooms && k !in n.rooms.Values
    ensures OneToOne(n.(rooms := n.rooms[r := k]))
  {
    forall s | s in n.rooms ensures n.rooms[s] != k {
      assert n.rooms[s] in n.rooms.Values;
    }
  }

  lemma NewRoomRooms(h: Objects, g: Numbers, n: Naming, name: Bytes, r: Room, k: nat)
    requires SameRooms(h, g, n) && r !in n.rooms && r !in h.cancelled && k !in g.cancelled
    ensures SameRooms(h.(rooms := h.rooms[name := r]), g.(rooms := g.rooms[name := k]), n.(rooms := n.rooms[r := k]))
  {
  }

  lemma NewRoomKeys(h: Objects, g: Numbers, n: Naming, r: Room, k: nat, a: set<Client>, b: set<nat>)
    requires SameKeys(h, g, n) && r !in n.rooms
    ensures SameKeys(h.(members := h.members[r := a]), g.(members := g.members[k := b]), n.(rooms := n.rooms[r := k]))
  {
    ExtendValues(n.rooms, r, k);
  }

  /** The state with a new room object, on both sides. */
  lemma NewRoomSimulated(h: Objects, g: Numbers, n: Naming, name: Bytes, c: Client, r: Room, k: nat)
    requires Simulates(h, g, n) && c in n.clients
    requires r !in n.rooms && k !in n.rooms.Values && r !in h.cancelled && k !in g.cancelled
    ensures Simulates(HubState(h.rooms[name := r], h.members[r := {c}], h.cancelled, h.sends),
                      HubState(g.rooms[name := k], g.members[k := {n.clients[c]}], g.cancelled, g.sends),
                      n.(rooms := n.rooms[r := k]))
  {
    NewRoomOneToOne(n, r, k);
    NewRoomKeys(h, g, n, r, k, {c}, {n.clients[c]});
    NewRoomRooms(h, g, n, name, r, k);
    NewRoomRosters(h, g, n, c, r, k);
  }

  /** Opening a room: r is the new object, k its number. */
  lemma JoinNewSimulated(h: Objects, g: Numbers, n: Naming, name: Bytes, c: Client, r: Room, k: nat)
    requires WellFormed(h) && WellFormed(g) && Simulates(h, g, n) && c in n.clients && name !in h.rooms
    requires r !in n.rooms && k !in n.rooms.Values && r !in h.cancelled && k !in g.cancelled
    ensures Simulates(Register(h, name, c, r), Register(g, name, n.clients[c], k), n.(rooms := n.rooms[r := k]))
  {
    NewRoomSimulated(h, g, n, name, c, r, k);
    assert name !in g.rooms;
  }

  // ----- the steps of a pod -----

  /**
   Each method of the class Hub, whose contract is the left-hand function, is matched by
   the step of ChatSystem with the same name: leave, broadcast, close and the receive of
   a writer. The message of the broadcast is the one in the hand of the subscription.
   */
  lemma MethodsMatchSteps(h: Objects, p: Pod, n: Naming)
    requires WellFormed(h) && PodShape(p) && Simulates(h, p.hub, n)
    ensures forall c :: c in n.clients && CanLeave(p, n.clients[c]) ==>
              Simulates(Deregister(h, p.conns[n.clients[c]].room, c), DoLeave(p, n.clients[c]).hub, n)
    ensures forall r :: r in n.rooms && CanBroadcast(p, n.rooms[r]) ==>
              Simulates(Broadcast(h, r, n.marshal(p.subs[n.rooms[r]].hand.value.msg)),
                        DoBroadcast(p, n.rooms[r]).hub, n)
    ensures forall c :: c in n.clients && CanClose(p, n.clients[c]) ==>
              Simulates(CloseSend(h, c), DoClose(p, n.clients[c]).hub, n)
    ensures forall c :: c in n.clients && CanTake(p, n.clients[c]) ==>
              && c in h.sends && h.sends[c].buffer != []
              && Simulates(TakeFirst(h, c), DoTake(p, n.clients[c]).hub, n)
  {
    forall c | c in n.clients && CanLeave(p, n.clients[c])
      ensures Simulates(Deregister(h, p.conns[n.clients[c]].room, c), DoLeave(p, n.clients[c]).hub, n)
    {
      LeaveSimulated(h, p.hub, n, p.conns[n.clients[c]].room, c);
    }
    forall r | r in n.rooms && CanBroadcast(p, n.rooms[r])
      ensures Simulates(Broadcast(h, r, n.marshal(p.subs[n.rooms[r]].hand.value.msg)),
                        DoBroadcast(p, n.rooms[r]).hub, n)
    {
      BroadcastSimulated(h, p.hub, n, r, p.subs[n.rooms[r]].hand.value);
    }
    forall c | c in n.clients && CanClose(p, n.clients[c])
      ensures Simulates(CloseSend(h, c), DoClose(p, n.clients[c]).hub, n)
    {
      CloseSimulated(h, p.hub, n, c);
    }
    forall c | c in n.clients && CanTake(p, n.clients[c])
      ensures c in h.sends && h.sends[c].buffer != []
      ensures Simulates(TakeFirst(h, c), DoTake(p, n.clients[c]).hub, n)
    {
      TakeSimulated(h, p.hub, n, c);
    }
  }

  /** The same for join by a new client c, with number i; r and k are the room object it opens, if it opens one. */
  lemma JoinMatchesStep(h: Objects, p: Pod, n: Naming, name: Bytes, c: Client, i: nat, r: Room, k: nat)
    requires WellFormed(h) && PodShape(p) && Simulates(h, p.hub, n) && CanRegister(p, i, name, k) && c !in n.clients
    requires name !in h.rooms ==> r !in n.rooms && r !in h.cancelled && k !in p.hub.cancelled
    ensures WellFormed(OpenClient(h, c, SEND_CAPACITY))
    ensures var named := n.(clients := n.clients[c := i]);
            Simulates(Register(OpenClient(h, c, SEND_CAPACITY), name, c, r), DoRegister(p, i, name, k).hub,
                      if name in h.rooms then named else named.(rooms := n.rooms[r := k]))
  {
    OpenSimulated(h, p.hub, n, c, i, SEND_CAPACITY);
    OpenWellFormed(h, c, SEND_CAPACITY);
    OpenWellFormed(p.hub, i, SEND_CAPACITY);
    var named := n.(clients := n.clients[c := i]);
    var h', g' := OpenClient(h, c, SEND_CAPACITY), OpenClient(p.hub, i, SEND_CAPACITY);
    if name in h.rooms {
      JoinOldSimulated(h', g', named, name, c, r, k);
    } else {
      JoinNewSimulated(h', g', named, name, c, r, k);
    }
  }

  /** A new hub is the hub of a new pod. */
  lemma NewHubMatchesEmptyPod(marshal: Message -> Bytes)
    ensures Simulates(HubState(map[], map[], {}, map[]), EMPTY_POD.hub, Naming(map[], map[], marshal))
  {
  }

  lemma ChannelsCloseTogether(h: Objects, g: Numbers, n: Naming, c: Client)
    requires SameChans(h, g, n) && c in n.clients
    ensures c in h.sends && n.clients[c] in g.sends && (h.sends[c].closed <==> g.sends[n.clients[c]].closed)
  {
    assert SameChan(h.sends[c], g.sends[n.clients[c]], n.marshal);
  }

  lemma MembersAreOpen(h: Objects, p: Pod, n: Naming, r: Room, c: Client)
    requires PodShape(p) && MembersInv(p) && ChannelsInv(p) && SameRosters(h, p.hub, n) && SameChans(h, p.hub, n)
    requires r in n.rooms && r in h.members && c in h.members[r]
    ensures c in h.sends && !h.sends[c].closed
  {
    assert SameMembers(h.members[r], p.hub.members[n.rooms[r]], n);
    ChannelsCloseTogether(h, p.hub, n, c);
  }

  /**
   A hub that stands for a pod in any reachable state meets what BroadcastLocalRoom and
   Close require: no client of a room object has a closed channel, and a client about to
   be closed has an open one.
   */
  lemma ReachableHubIsSafe(t: System, p: nat, h: Objects, n: Naming)
    requires ChatTheorems.Reachable(t) && p in t.pods && PodShape(t.pods[p]) && Simulates(h, t.pods[p].hub, n)
    ensures forall r, c :: r in h.members && c in h.members[r] ==> c in h.sends && !h.sends[c].closed
    ensures forall c :: c in n.clients && CanClose(t.pods[p], n.clients[c]) ==> !h.sends[c].closed
  {
    ChatTheorems.ReachableHub(t, p);
    forall r, c | r in h.members && c in h.members[r] ensures c in h.sends && !h.sends[c].closed {
      MembersAreOpen(h, t.pods[p], n, r, c);
    }
    forall c | c in n.clients && CanClose(t.pods[p], n.clients[c]) ensures !h.sends[c].closed {
      ChannelsCloseTogether(h, t.pods[p].hub, n, c);
    }
  }
}
