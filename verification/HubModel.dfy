/**
 The state services/chat/hub.go keeps under Hub.mu, as a value, and the effect of
 each critical section on it. Room objects and clients are of any type with
 equality: the transition system numbers them, the class Hub uses its own objects.
 */
module HubModel {
  import opened Routing

  /** A buffered Go channel. */
  datatype Chan<P> = Chan(capacity: nat, buffer: seq<P>, closed: bool)

  /**
   rooms: the map by name. members and cancelled: the clients and the cancelled
   flag of every room object ever created, detached ones included. sends: the send
   channel of every client.
   */
  datatype HubState<R(==), C(==), P> = HubState(
    rooms: map<Bytes, R>,
    members: map<R, set<C>>,
    cancelled: set<R>,
    sends: map<C, Chan<P>>)

  ghost predicate WellFormed<R, C, P>(h: HubState<R, C, P>) {
    && (forall name :: name in h.rooms ==> h.rooms[name] in h.members)
    && (forall r, c :: r in h.members && c in h.members[r] ==> c in h.sends)
  }

  /** make(chan []byte, capacity) for a new client. */
  function OpenClient<R, C, P>(h: HubState<R, C, P>, c: C, capacity: nat): HubState<R, C, P> {
    h.(sends := h.sends[c := Chan(capacity, [], false)])
  }

  /** The critical section of join; created is the room object it may allocate. */
  function Register<R, C, P>(h: HubState<R, C, P>, name: Bytes, c: C, created: R): HubState<R, C, P>
    requires WellFormed(h)
  {
    if name in h.rooms then
      var r := h.rooms[name];
      h.(members := h.members[r := h.members[r] + {c}])
    else
      h.(rooms := h.rooms[name := created], members := h.members[created := {c}])
  }

  /** leave. */
  function Deregister<R, C, P>(h: HubState<R, C, P>, name: Bytes, c: C): HubState<R, C, P>
    requires WellFormed(h)
  {
    if name !in h.rooms then h
    else
      var r := h.rooms[name];
      var rest := h.members[r] - {c};
      if rest == {} then
        HubState(h.rooms - {name}, h.members[r := rest], h.cancelled + {r}, h.sends)
      else
        h.(members := h.members[r := rest])
  }

  predicate HasSpace<P>(ch: Chan<P>) {
    |ch.buffer| < ch.capacity
  }

  /** select with a default case: append if there is space, otherwise drop. */
  function Offer<P>(ch: Chan<P>, p: P): Chan<P> {
    if HasSpace(ch) then ch.(buffer := ch.buffer + [p]) else ch
  }

  /** broadcastLocalRoom. */
  function Broadcast<R, C, P>(h: HubState<R, C, P>, r: R, p: P): HubState<R, C, P>
    requires r in h.members
  {
    h.(sends := map c | c in h.sends :: if c in h.members[r] then Offer(h.sends[c], p) else h.sends[c])
  }

  /** A send on a closed channel panics, in a select with a default case too. */
  ghost predicate BroadcastPanics<R, C, P>(h: HubState<R, C, P>, r: R)
    requires WellFormed(h) && r in h.members
  {
    exists c :: c in h.members[r] && h.sends[c].closed
  }

  function CloseSend<R, C, P>(h: HubState<R, C, P>, c: C): HubState<R, C, P>
    requires c in h.sends
  {
    h.(sends := h.sends[c := h.sends[c].(closed := true)])
  }

  /** The receive of a writer from a channel that is not empty. */
  function TakeFirst<R, C, P>(h: HubState<R, C, P>, c: C): HubState<R, C, P>
    requires c in h.sends && h.sends[c].buffer != []
  {
    h.(sends := h.sends[c := h.sends[c].(buffer := h.sends[c].buffer[1..])])
  }

  // ----- join and leave as inverses -----

  /**
   leave by a client that has just joined restores the rooms by name and the clients of
   every room object there was. Only if the join opened the room does something remain:
   the new object, detached, empty and cancelled.
   */
  lemma LeaveUndoesJoin<R, C, P>(h: HubState<R, C, P>, name: Bytes, c: C, created: R)
    requires WellFormed(h) && c in h.sends && created !in h.members
    requires forall r :: r in h.members ==> c !in h.members[r]
    requires name in h.rooms ==> h.members[h.rooms[name]] != {}
    ensures WellFormed(Register(h, name, c, created))
    ensures var h' := Deregister(Register(h, name, c, created), name, c);
            if name in h.rooms then h' == h
            else h' == HubState(h.rooms, h.members[created := {}], h.cancelled + {created}, h.sends)
  {
  }
}
