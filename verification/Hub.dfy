/**
 services/chat/hub.go and the channel ends of handler.go as classes. Each method is
 one critical section; its contract is the function of HubModel that the transition
 system of ChatSystem takes as the effect of the corresponding step.
 */
module Hub {
  import opened Common
  import opened Routing
  import opened HubModel

  class Client {
    const capacity: nat
    var buffer: seq<Bytes>
    var closed: bool

    constructor (capacity: nat)
      ensures this.capacity == capacity && buffer == [] && !closed
    {
      this.capacity := capacity;
      buffer := [];
      closed := false;
    }

    ghost function AsChan(): Chan<Bytes>
      reads this
    {
      Chan(capacity, buffer, closed)
    }

    /** select { case c.send <- payload: default: } */
    method TrySend(payload: Bytes)
      requires !closed
      modifies `buffer
      ensures AsChan() == Offer(old(AsChan()), payload)
    {
      if |buffer| < capacity {
        buffer := buffer + [payload];
      }
    }

    /** close(c.send) */
    method Close()
      requires !closed
      modifies `closed
      ensures AsChan() == old(AsChan()).(closed := true)
    {
      closed := true;
    }

    /** One round of the writer's range over c.send: None if there is nothing to receive. */
    method Receive() returns (payload: Option<Bytes>)
      modifies `buffer
      ensures old(buffer) == [] ==> payload == None && buffer == []
      ensures old(buffer) != [] ==> payload == Some(old(buffer)[0]) && buffer == old(buffer)[1..]
    {
      if buffer == [] {
        return None;
      }
      payload := Some(buffer[0]);
      buffer := buffer[1..];
    }

    /**
     The writer goroutine once the channel is closed: ok(i) says whether the i-th write
     to the socket succeeds. It writes the buffer in order up to the first failure.
     */
    method Drain(ok: nat -> bool) returns (written: seq<Bytes>, failed: bool)
      requires closed
      modifies `buffer
      ensures written <= old(buffer)
      ensures forall i :: 0 <= i < |written| ==> ok(i)
      ensures failed ==> |written| < |old(buffer)| && !ok(|written|) && buffer == old(buffer)[|written| + 1..]
      ensures !failed ==> written == old(buffer) && buffer == []
    {
      written := [];
      while buffer != []
        invariant old(buffer) == written + buffer
        invariant forall i :: 0 <= i < |written| ==> ok(i)
        decreases |buffer|
      {
        var payload := Receive();
        if !ok(|written|) {
          return written, true;
        }
        written := written + [payload.value];
      }
      failed := false;
    }
  }

  class Room {
    var clients: set<Client>
    var cancelled: bool

    constructor (c: Client)
      ensures clients == {c} && !cancelled
    {
      clients := {c};
      cancelled := false;
    }
  }

  class Hub {
    var rooms: map<Bytes, Room>
    /** Every room object and client so far; subscriptions keep detached rooms alive. */
    ghost var allRooms: set<Room>
    ghost var allClients: set<Client>

    ghost predicate Valid()
      reads this, allRooms
    {
      && rooms.Values <= allRooms
      && forall r :: r in allRooms ==> r.clients <= allClients
    }

    ghost function View(): (h: HubState<Room, Client, Bytes>)
      requires Valid()
      reads this, allRooms, allClients
      ensures WellFormed(h)
    {
      assert forall name :: name in rooms ==> rooms[name] in rooms.Values;
      HubState(rooms,
               map r | r in allRooms :: r.clients,
               set r | r in allRooms && r.cancelled,
               map c | c in allClients :: c.AsChan())
    }

    constructor ()
      ensures Valid() && View() == HubState(map[], map[], {}, map[])
      ensures fresh(allRooms) && fresh(allClients)
    {
      rooms := map[];
      allRooms := {};
      allClients := {};
    }

    method NewClient(capacity: nat) returns (c: Client)
      requires Valid()
      modifies `allClients
      ensures Valid() && fresh(c)
      ensures View() == OpenClient(old(View()), c, capacity)
    {
      c := new Client(capacity);
      allClients := allClients + {c};
    }

    /** The locked section of join; the caller subscribes for r if the room was opened. */
    method Join(name: Bytes, c: Client) returns (r: Room, isNew: bool)
      requires Valid() && c in allClients
      modifies `rooms, `allRooms, rooms.Values`clients
      ensures Valid()
      ensures isNew <==> name !in old(rooms)
      ensures isNew ==> fresh(r)
      ensures View() == Register(old(View()), name, c, r)
    {
      if name in rooms {
        r := rooms[name];
        r.clients := r.clients + {c};
        isNew := false;
        assert View().members == old(View()).members[r := old(View()).members[r] + {c}];
        assert View().cancelled == old(View()).cancelled;
      } else {
        r := OpenRoom(name, c);
        isNew := true;
      }
    }

    method OpenRoom(name: Bytes, c: Client) returns (r: Room)
      requires Valid() && c in allClients
      modifies `rooms, `allRooms
      ensures Valid() && fresh(r)
      ensures View() == old(View()).(rooms := old(View()).rooms[name := r], members := old(View()).members[r := {c}])
    {
      r := new Room(c);
      rooms := rooms[name := r];
      allRooms := allRooms + {r};
      assert View().members == old(View()).members[r := {c}];
      assert View().cancelled == old(View()).cancelled;
    }

    method Leave(name: Bytes, c: Client)
      requires Valid()
      modifies `rooms, rooms.Values
      ensures Valid()
      ensures View() == Deregister(old(View()), name, c)
    {
      if name !in rooms {
        return;
      }
      var r := rooms[name];
      r.clients := r.clients - {c};
      assert View().members == old(View()).members[r := old(View()).members[r] - {c}];
      assert View().cancelled == old(View()).cancelled && View().sends == old(View()).sends;
      if r.clients == {} {
        CancelAndForget(name, r);
      }
    }

    /** r.cancel() and the removal of the name. */
    method CancelAndForget(name: Bytes, r: Room)
      requires Valid() && r in allRooms
      modifies `rooms, r`cancelled
      ensures Valid()
      ensures View() == old(View()).(rooms := old(View()).rooms - {name}, cancelled := old(View()).cancelled + {r})
    {
      r.cancelled := true;
      rooms := rooms - {name};
      assert View().members == old(View()).members && View().sends == old(View()).sends;
    }

    /** The order of the range over r.clients is arbitrary. */
    method BroadcastLocalRoom(r: Room, payload: Bytes)
      requires Valid() && r in allRooms
      requires forall c :: c in r.clients ==> !c.closed
      modifies r.clients`buffer
      ensures Valid()
      ensures View() == Broadcast(old(View()), r, payload)
      ensures r.clients == old(r.clients)
      ensures forall c :: c in r.clients && |old(c.buffer)| < c.capacity ==> c.buffer == old(c.buffer) + [payload]
      ensures forall c :: c in allClients && (c !in r.clients || |old(c.buffer)| >= c.capacity) ==>
                c.buffer == old(c.buffer)
    {
      var rest := r.clients;
      while rest != {}
        invariant rest <= r.clients
        invariant forall c :: c in allClients ==>
                    c.AsChan() == if c in r.clients - rest then Offer(old(c.AsChan()), payload) else old(c.AsChan())
        decreases rest
      {
        var c :| c in rest;
        c.TrySend(payload);
        rest := rest - {c};
      }
    }

    method BroadcastLocal(name: Bytes, payload: Bytes)
      requires Valid()
      requires name in rooms ==> forall c :: c in rooms[name].clients ==> !c.closed
      modifies set r, c | r in rooms.Values && c in r.clients :: c
      ensures Valid()
      ensures View() == if name in old(rooms) then Broadcast(old(View()), old(rooms)[name], payload) else old(View())
    {
      if name in rooms {
        var r := rooms[name];
        BroadcastLocalRoom(r, payload);
      }
    }

    /** The writer of c receives. */
    method ReceiveFrom(c: Client) returns (payload: Bytes)
      requires Valid() && c in allClients && c.buffer != []
      modifies c`buffer
      ensures Valid()
      ensures payload == old(View()).sends[c].buffer[0] && View() == TakeFirst(old(View()), c)
    {
      var received := c.Receive();
      payload := received.value;
      assert View().sends == TakeFirst(old(View()), c).sends;
    }

    /** close(c.send) */
    method CloseClient(c: Client)
      requires Valid() && c in allClients && !c.closed
      modifies c`closed
      ensures Valid() && View() == CloseSend(old(View()), c)
    {
      c.Close();
      assert View().sends == CloseSend(old(View()), c).sends;
    }
  }
}
