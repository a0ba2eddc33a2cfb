/**
 The chat fan-out protocol as a transition system: any number of pods, each with
 its hub (hub.go), its connections (handler.go) and its room subscriptions
 (broker.go), joined by one publish log per Redis shard and channel.

 A section holding Hub.mu is one step. join is two steps, because it subscribes
 after releasing the mutex; receiving a message and broadcasting it are two steps,
 because the mutex is taken only inside the callback.
 */
module ChatSystem {
  import opened Common
  import opened Routing
  import opened HubModel

  /** make(chan []byte, 16) */
  const SEND_CAPACITY: nat := 16

  datatype Message = Message(room: Bytes, body: Bytes)

  /** A message together with its position in the log it was published to. */
  datatype Entry = Entry(pos: nat, msg: Message)

  /** Where the handler of a connection is. Subscribing: inside join, before broker.subscribe. */
  datatype Phase = Subscribing(r: nat) | Serving | Left | Closed | Done

  /** The writer goroutine of a connection. */
  datatype Writer = NotStarted | Idle | Writing(entry: Entry) | Exited(failed: bool)

  /** accepted is a history: everything a broadcast put on the send channel. */
  datatype Conn = Conn(room: Bytes, phase: Phase, writer: Writer, accepted: seq<Entry>, written: seq<Entry>)

  /**
   The subscription a room object opens: the loop of broker.subscribe with the
   messages Redis has queued for it and the one it has received but not yet broadcast.
   */
  datatype Sub = Sub(room: Bytes, opener: nat, started: bool, ended: bool, queue: seq<Entry>, hand: Option<Entry>)

  datatype Pod = Pod(
    hub: HubState<nat, nat, Entry>,
    conns: map<nat, Conn>,
    subs: map<nat, Sub>,
    panicked: bool)

  datatype System = System(shards: ShardCount, pods: map<nat, Pod>, logs: map<LogKey, seq<Message>>)

  /** Steps inside one pod; c numbers a client, r a room object. */
  datatype PodStep =
    | JoinRegister(c: nat, room: Bytes, r: nat)
    | JoinSubscribe(c: nat)
    | SubReceive(r: nat)
    | SubBroadcast(r: nat)
    | SubDrop(r: nat, i: nat)
    | SubEnd(r: nat)
    | WriterTake(c: nat)
    | WriterWrite(c: nat)
    | WriterFail(c: nat)
    | WriterExit(c: nat)
    | LeaveRoom(c: nat)
    | CloseChannel(c: nat)
    | Finish(c: nat)

  /**
   Publish: a connection publishes body to its own room; Redis queues the message
   for the subscriptions in receivers and loses it for every other one.
   */
  datatype Step =
    | Local(p: nat, step: PodStep)
    | Publish(p: nat, c: nat, body: Bytes, receivers: set<(nat, nat)>)

  const EMPTY_POD: Pod := Pod(HubState(map[], map[], {}, map[]), map[], map[], false)

  ghost predicate Init(s: System) {
    s.logs == map[] && forall p :: p in s.pods ==> s.pods[p] == EMPTY_POD
  }

  function Log(logs: map<LogKey, seq<Message>>, key: LogKey): seq<Message> {
    if key in logs then logs[key] else []
  }

  /** Ids in maps agree and the hub is well formed: what makes every step computable. */
  ghost predicate PodShape(p: Pod) {
    && WellFormed(p.hub)
    && p.conns.Keys == p.hub.sends.Keys
    && p.subs.Keys == p.hub.members.Keys
  }

  // ----- the steps of one pod -----

  predicate CanRegister(p: Pod, c: nat, room: Bytes, r: nat) {
    room != [] && c !in p.conns && r !in p.subs
  }

  /** The locked section of join by a new client c; r is the room object it allocates if the name is free. */
  ghost function DoRegister(p: Pod, c: nat, room: Bytes, r: nat): (q: Pod)
    requires PodShape(p) && CanRegister(p, c, room, r)
    ensures PodShape(q)
  {
    var hub := Register(OpenClient(p.hub, c, SEND_CAPACITY), room, c, r);
    if room in p.hub.rooms then
      p.(hub := hub, conns := p.conns[c := Conn(room, Serving, Idle, [], [])])
    else
      p.(hub := hub,
         conns := p.conns[c := Conn(room, Subscribing(r), NotStarted, [], [])],
         subs := p.subs[r := Sub(room, c, false, false, [], None)])
  }

  predicate CanSubscribe(p: Pod, c: nat) {
    c in p.conns && p.conns[c].phase.Subscribing? && p.conns[c].phase.r in p.subs
  }

  /** The rest of join for the client that created the room; then its writer starts. */
  ghost function DoSubscribe(p: Pod, c: nat): (q: Pod)
    requires PodShape(p) && CanSubscribe(p, c)
    ensures PodShape(q)
  {
    var r := p.conns[c].phase.r;
    p.(conns := p.conns[c := p.conns[c].(phase := Serving, writer := Idle)],
       subs := p.subs[r := p.subs[r].(started := true)])
  }

  predicate CanReceiveNext(p: Pod, r: nat) {
    r in p.subs && p.subs[r].started && !p.subs[r].ended && p.subs[r].hand.None? && p.subs[r].queue != []
  }

  /** The receive case of the subscription loop; a cancelled context does not exclude it. */
  ghost function DoReceive(p: Pod, r: nat): (q: Pod)
    requires PodShape(p) && CanReceiveNext(p, r)
    ensures PodShape(q)
  {
    var sub := p.subs[r];
    p.(subs := p.subs[r := sub.(hand := Some(sub.queue[0]), queue := sub.queue[1..])])
  }

  /** Does broadcasting on r put an entry on the channel of c? */
  predicate Accepts(h: HubState<nat, nat, Entry>, r: nat, c: nat)
    requires r in h.members
  {
    c in h.members[r] && c in h.sends && HasSpace(h.sends[c])
  }

  predicate CanBroadcast(p: Pod, r: nat) {
    r in p.subs && p.subs[r].hand.Some?
  }

  /** The callback: broadcastLocalRoom on the room object the subscription was opened for. */
  ghost function DoBroadcast(p: Pod, r: nat): (q: Pod)
    requires PodShape(p) && CanBroadcast(p, r)
    ensures PodShape(q)
  {
    var sub := p.subs[r];
    Pod(Broadcast(p.hub, r, sub.hand.value),
        map c | c in p.conns ::
          if Accepts(p.hub, r, c) then p.conns[c].(accepted := p.conns[c].accepted + [sub.hand.value])
          else p.conns[c],
        p.subs[r := sub.(hand := None)],
        p.panicked || BroadcastPanics(p.hub, r))
  }

  predicate CanDrop(p: Pod, r: nat, i: nat) {
    r in p.subs && i < |p.subs[r].queue|
  }

  /** Redis or its client library loses a queued message. */
  ghost function DoDrop(p: Pod, r: nat, i: nat): (q: Pod)
    requires PodShape(p) && CanDrop(p, r, i)
    ensures PodShape(q)
  {
    var sub := p.subs[r];
    p.(subs := p.subs[r := sub.(queue := sub.queue[..i] + sub.queue[i + 1..])])
  }

  predicate CanEnd(p: Pod, r: nat) {
    r in p.subs && p.subs[r].started && p.subs[r].hand.None?
  }

  /** The subscription loop returns: the context is done or the message channel is closed. */
  ghost function DoEnd(p: Pod, r: nat): (q: Pod)
    requires PodShape(p) && CanEnd(p, r)
    ensures PodShape(q)
  {
    p.(subs := p.subs[r := p.subs[r].(ended := true, queue := [])])
  }

  ghost predicate CanTake(p: Pod, c: nat)
    requires PodShape(p)
  {
    c in p.conns && p.conns[c].writer.Idle? && p.hub.sends[c].buffer != []
  }

  /** The writer goroutine receives from the send channel. */
  ghost function DoTake(p: Pod, c: nat): (q: Pod)
    requires PodShape(p) && CanTake(p, c)
    ensures PodShape(q)
  {
    p.(hub := TakeFirst(p.hub, c),
       conns := p.conns[c := p.conns[c].(writer := Writing(p.hub.sends[c].buffer[0]))])
  }

  predicate CanWrite(p: Pod, c: nat) {
    c in p.conns && p.conns[c].writer.Writing?
  }

  ghost function DoWrite(p: Pod, c: nat): (q: Pod)
    requires PodShape(p) && CanWrite(p, c)
    ensures PodShape(q)
  {
    var conn := p.conns[c];
    p.(conns := p.conns[c := conn.(writer := Idle, written := conn.written + [conn.writer.entry])])
  }

  /** conn.Write fails and the writer returns. */
  ghost function DoFail(p: Pod, c: nat): (q: Pod)
    requires PodShape(p) && CanWrite(p, c)
    ensures PodShape(q)
  {
    p.(conns := p.conns[c := p.conns[c].(writer := Exited(true))])
  }

  ghost predicate CanExit(p: Pod, c: nat)
    requires PodShape(p)
  {
    c in p.conns && p.conns[c].writer.Idle? && p.hub.sends[c].closed && p.hub.sends[c].buffer == []
  }

  /** The range over a closed, drained channel ends. */
  ghost function DoExit(p: Pod, c: nat): (q: Pod)
    requires PodShape(p) && CanExit(p, c)
    ensures PodShape(q)
  {
    p.(conns := p.conns[c := p.conns[c].(writer := Exited(false))])
  }

  predicate CanLeave(p: Pod, c: nat) {
    c in p.conns && p.conns[c].phase.Serving?
  }

  ghost function DoLeave(p: Pod, c: nat): (q: Pod)
    requires PodShape(p) && CanLeave(p, c)
    ensures PodShape(q)
  {
    p.(hub := Deregister(p.hub, p.conns[c].room, c), conns := p.conns[c := p.conns[c].(phase := Left)])
  }

  ghost predicate CanClose(p: Pod, c: nat)
    requires PodShape(p)
  {
    c in p.conns && p.conns[c].phase.Left?
  }

  /** close(c.send), which panics on a channel already closed. */
  ghost function DoClose(p: Pod, c: nat): (q: Pod)
    requires PodShape(p) && CanClose(p, c)
    ensures PodShape(q)
  {
    p.(hub := CloseSend(p.hub, c),
       conns := p.conns[c := p.conns[c].(phase := Closed)],
       panicked := p.panicked || p.hub.sends[c].closed)
  }

  predicate CanFinish(p: Pod, c: nat) {
    c in p.conns && p.conns[c].phase.Closed? && p.conns[c].writer.Exited?
  }

  /** <-writeDone */
  ghost function DoFinish(p: Pod, c: nat): (q: Pod)
    requires PodShape(p) && CanFinish(p, c)
    ensures PodShape(q)
  {
    p.(conns := p.conns[c := p.conns[c].(phase := Done)])
  }

  ghost predicate PodEnabled(p: Pod, a: PodStep)
    requires PodShape(p)
  {
    match a
    case JoinRegister(c, room, r) => CanRegister(p, c, room, r)
    case JoinSubscribe(c) => CanSubscribe(p, c)
    case SubReceive(r) => CanReceiveNext(p, r)
    case SubBroadcast(r) => CanBroadcast(p, r)
    case SubDrop(r, i) => CanDrop(p, r, i)
    case SubEnd(r) => CanEnd(p, r)
    case WriterTake(c) => CanTake(p, c)
    case WriterWrite(c) => CanWrite(p, c)
    case WriterFail(c) => CanWrite(p, c)
    case WriterExit(c) => CanExit(p, c)
    case LeaveRoom(c) => CanLeave(p, c)
    case CloseChannel(c) => CanClose(p, c)
    case Finish(c) => CanFinish(p, c)
  }

  ghost function PodApply(p: Pod, a: PodStep): (q: Pod)
    requires PodShape(p) && PodEnabled(p, a)
    ensures PodShape(q)
  {
    match a
    case JoinRegister(c, room, r) => DoRegister(p, c, room, r)
    case JoinSubscribe(c) => DoSubscribe(p, c)
    case SubReceive(r) => DoReceive(p, r)
    case SubBroadcast(r) => DoBroadcast(p, r)
    case SubDrop(r, i) => DoDrop(p, r, i)
    case SubEnd(r) => DoEnd(p, r)
    case WriterTake(c) => DoTake(p, c)
    case WriterWrite(c) => DoWrite(p, c)
    case WriterFail(c) => DoFail(p, c)
    case WriterExit(c) => DoExit(p, c)
    case LeaveRoom(c) => DoLeave(p, c)
    case CloseChannel(c) => DoClose(p, c)
    case Finish(c) => DoFinish(p, c)
  }

  // ----- the steps of the whole system -----

  /** Queue an entry for the subscriptions of pod i that are among the receivers. */
  function Enqueue(p: Pod, i: nat, receivers: set<(nat, nat)>, e: Entry): Pod {
    p.(subs := map r | r in p.subs ::
         if (i, r) in receivers then p.subs[r].(queue := p.subs[r].queue + [e]) else p.subs[r])
  }

  /** Redis delivers to live subscriptions of exactly the channel published to. */
  ghost predicate CanReceive(s: System, key: LogKey, target: (nat, nat)) {
    && target.0 in s.pods
    && target.1 in s.pods[target.0].subs
    && var sub := s.pods[target.0].subs[target.1];
       sub.started && !sub.ended && Route(sub.room, s.shards) == key
  }

  ghost predicate Shape(s: System) {
    forall p :: p in s.pods ==> PodShape(s.pods[p])
  }

  ghost predicate Enabled(s: System, a: Step)
    requires Shape(s)
  {
    match a
    case Local(p, step) => p in s.pods && PodEnabled(s.pods[p], step)
    case Publish(p, c, body, receivers) =>
      && p in s.pods && c in s.pods[p].conns && s.pods[p].conns[c].phase.Serving?
      && forall t :: t in receivers ==> CanReceive(s, Route(s.pods[p].conns[c].room, s.shards), t)
  }

  ghost function Apply(s: System, a: Step): (t: System)
    requires Shape(s) && Enabled(s, a)
    ensures Shape(t)
  {
    match a
    case Local(p, step) => s.(pods := s.pods[p := PodApply(s.pods[p], step)])
    case Publish(p, c, body, receivers) =>
      var room := s.pods[p].conns[c].room;
      var key := Route(room, s.shards);
      var e := Entry(|Log(s.logs, key)|, Message(room, body));
      System(s.shards,
             map i | i in s.pods :: Enqueue(s.pods[i], i, receivers, e),
             s.logs[key := Log(s.logs, key) + [e.msg]])
  }
}
