/** Safety and termination of the chat system over all runs. */
module ChatTheorems {
  import opened Common
  import opened Routing
  import opened HubModel
  import opened ChatSystem
  import opened ChatInvariant

  // ----- runs -----

  /** Taking steps one after the other leads from s to t. */
  ghost predicate Executes(s: System, steps: seq<Step>, t: System)
    decreases steps
  {
    if steps == [] then s == t
    else Shape(s) && Enabled(s, steps[0]) && Executes(Apply(s, steps[0]), steps[1..], t)
  }

  ghost predicate Reachable(t: System) {
    exists s, steps :: Init(s) && Executes(s, steps, t)
  }

  lemma HeadAndTail<T>(a: seq<T>, b: seq<T>)
    ensures if a == [] then a + b == b else a + b != [] && (a + b)[0] == a[0] && (a + b)[1..] == a[1..] + b
  {
  }

  lemma {:induction false} RunsCompose(s: System, steps: seq<Step>, t: System, more: seq<Step>, u: System)
    requires Executes(s, steps, t) && Executes(t, more, u)
    ensures Executes(s, steps + more, u)
    decreases steps
  {
    HeadAndTail(steps, more);
    if steps != [] {
      RunsCompose(Apply(s, steps[0]), steps[1..], t, more, u);
    }
  }

  lemma StepIsRun(s: System, a: Step)
    requires Shape(s) && Enabled(s, a)
    ensures Executes(s, [a], Apply(s, a))
  {
    assert Executes(Apply(s, a), [], Apply(s, a));
  }

  lemma StepReachable(s: System, a: Step)
    requires Reachable(s) && Shape(s) && Enabled(s, a)
    ensures Reachable(Apply(s, a))
  {
    var s0, steps :| Init(s0) && Executes(s0, steps, s);
    StepIsRun(s, a);
    RunsCompose(s0, steps, s, [a], Apply(s, a));
  }

  lemma {:induction false} RunKeepsInv(s: System, steps: seq<Step>, t: System)
    requires Inv(s) && Executes(s, steps, t)
    ensures Inv(t)
    decreases steps
  {
    if steps != [] {
      StepKeepsInv(s, steps[0]);
      RunKeepsInv(Apply(s, steps[0]), steps[1..], t);
    }
  }

  lemma InitInv(s: System)
    requires Init(s)
    ensures Inv(s)
  {
    forall p | p in s.pods ensures PodInv(s.pods[p], s.shards, s.logs) {
      assert s.pods[p] == EMPTY_POD;
    }
  }

  lemma ReachableInv(t: System)
    requires Reachable(t)
    ensures Inv(t)
  {
    var s, steps :| Init(s) && Executes(s, steps, t);
    InitInv(s);
    RunKeepsInv(s, steps, t);
  }

  lemma ReachableConn(t: System, p: nat, c: nat)
    requires Reachable(t) && p in t.pods && c in t.pods[p].conns
    ensures PodShape(t.pods[p]) && Pipeline(t.pods[p].conns[c], t.pods[p].hub.sends[c])
    ensures var conn := t.pods[p].conns[c];
            FromLog(conn.accepted, Log(t.logs, Route(conn.room, t.shards))) && Ascending(conn.accepted)
  {
    ReachableInv(t);
  }

  lemma ReachableHub(t: System, p: nat)
    requires Reachable(t) && p in t.pods
    ensures PodShape(t.pods[p]) && HubInv(t.pods[p])
  {
    ReachableInv(t);
  }

  // ----- delivery -----

  /** positions picks, in increasing order, the places of log where accepted comes from. */
  ghost predicate SubsequenceAt(accepted: seq<Entry>, log: seq<Message>, positions: seq<nat>) {
    && |positions| == |accepted|
    && (forall i, j :: 0 <= i < j < |positions| ==> positions[i] < positions[j])
    && (forall i :: 0 <= i < |positions| ==> positions[i] < |log| && log[positions[i]] == accepted[i].msg)
  }

  lemma LogHoldsOneRoom(t: System, room: Bytes, k: nat)
    requires Reachable(t) && k < |Log(t.logs, Route(room, t.shards))|
    ensures Log(t.logs, Route(room, t.shards))[k].room == room
  {
    ReachableInv(t);
    RouteInjective(Log(t.logs, Route(room, t.shards))[k].room, room, t.shards);
  }

  /**
   What broadcasts put on the channel of a client is a subsequence of the publish log
   of its own room, each log entry at most once, and was published to that room.
   */
  lemma AcceptedIsSubsequence(t: System, p: nat, c: nat) returns (positions: seq<nat>)
    requires Reachable(t) && p in t.pods && c in t.pods[p].conns
    ensures var conn := t.pods[p].conns[c];
            && SubsequenceAt(conn.accepted, Log(t.logs, Route(conn.room, t.shards)), positions)
            && forall i :: 0 <= i < |conn.accepted| ==> conn.accepted[i].msg.room == conn.room
  {
    var conn := t.pods[p].conns[c];
    ReachableConn(t, p, c);
    positions := seq(|conn.accepted|, i requires 0 <= i < |conn.accepted| => conn.accepted[i].pos);
    forall i | 0 <= i < |conn.accepted| ensures conn.accepted[i].msg.room == conn.room {
      LogHoldsOneRoom(t, conn.room, conn.accepted[i].pos);
    }
  }

  /** Two clients of one room, on any pods, never see two messages in opposite orders. */
  lemma SameOrderEverywhere(t: System, p: nat, c: nat, p': nat, c': nat, i: nat, j: nat, i': nat, j': nat)
    requires Reachable(t)
    requires p in t.pods && c in t.pods[p].conns && p' in t.pods && c' in t.pods[p'].conns
    requires i < |t.pods[p].conns[c].accepted| && j < |t.pods[p].conns[c].accepted|
    requires i' < |t.pods[p'].conns[c'].accepted| && j' < |t.pods[p'].conns[c'].accepted|
    requires t.pods[p].conns[c].accepted[i] == t.pods[p'].conns[c'].accepted[i']
    requires t.pods[p].conns[c].accepted[j] == t.pods[p'].conns[c'].accepted[j']
    ensures i < j <==> i' < j'
  {
    ReachableConn(t, p, c);
    ReachableConn(t, p', c');
    SameOrder(t.pods[p].conns[c].accepted, t.pods[p'].conns[c'].accepted, i, j, i', j');
  }

  lemma SameOrder(a: seq<Entry>, b: seq<Entry>, i: nat, j: nat, i': nat, j': nat)
    requires Ascending(a) && Ascending(b) && i < |a| && j < |a| && i' < |b| && j' < |b|
    requires a[i] == b[i'] && a[j] == b[j']
    ensures i < j <==> i' < j'
  {
    assert i < j <==> a[i].pos < a[j].pos;
    assert i' < j' <==> b[i'].pos < b[j'].pos;
  }

  /** No message is written to the socket of a client of another room. */
  lemma WrittenStaysInRoom(t: System, p: nat, c: nat)
    requires Reachable(t) && p in t.pods && c in t.pods[p].conns
    ensures var conn := t.pods[p].conns[c];
            conn.written <= conn.accepted && forall e :: e in conn.written ==> e.msg.room == conn.room
  {
    ReachableConn(t, p, c);
    var positions := AcceptedIsSubsequence(t, p, c);
  }

  /** Until a write fails nothing accepted is lost between hub and socket, and no buffer exceeds its 16 places. */
  lemma PipelineIsLossless(t: System, p: nat, c: nat)
    requires Reachable(t) && p in t.pods && c in t.pods[p].conns
    ensures PodShape(t.pods[p])
    ensures var conn, ch := t.pods[p].conns[c], t.pods[p].hub.sends[c];
            && |ch.buffer| <= 16
            && (conn.writer != Exited(true) ==> conn.accepted == conn.written + InFlight(conn.writer) + ch.buffer)
            && (conn.writer == Exited(false) ==> conn.written == conn.accepted)
  {
    ReachableConn(t, p, c);
  }

  /**
   A channel holds 16 messages and no more: a member of the room object that has fewer
   buffered accepts the message in hand when it is broadcast, at the end of its buffer,
   and one that has 16 is the only one to miss it.
   */
  lemma SixteenAreBuffered(t: System, p: nat, r: nat, c: nat)
    requires Reachable(t) && p in t.pods && PodShape(t.pods[p]) && CanBroadcast(t.pods[p], r)
    requires c in t.pods[p].hub.members[r]
    ensures c in t.pods[p].conns
    ensures var pod, q, e := t.pods[p], DoBroadcast(t.pods[p], r), t.pods[p].subs[r].hand.value;
            var before, after := pod.hub.sends[c].buffer, q.hub.sends[c].buffer;
            && |before| <= 16
            && (|before| < 16 ==> after == before + [e] && q.conns[c].accepted == pod.conns[c].accepted + [e])
            && (|before| == 16 ==> after == before && q.conns[c].accepted == pod.conns[c].accepted)
  {
    ReachableHub(t, p);
    ReachableConn(t, p, c);
    BroadcastEffect(t.pods[p], r, c);
  }

  // ----- channels and room objects -----

  /** No send on a closed channel and no second close, under any interleaving. */
  lemma NeverPanics(t: System, p: nat)
    requires Reachable(t) && p in t.pods
    ensures !t.pods[p].panicked
  {
    ReachableHub(t, p);
  }

  /** A client whose channel is closed is in no room object, attached or detached. */
  lemma ClosedClientIsNowhere(t: System, p: nat, c: nat, r: nat)
    requires Reachable(t) && p in t.pods && PodShape(t.pods[p])
    requires c in t.pods[p].conns && t.pods[p].hub.sends[c].closed && r in t.pods[p].subs
    ensures c !in t.pods[p].hub.members[r]
  {
    ReachableHub(t, p);
  }

  /** A late callback of a cancelled subscription reaches nobody, the new room of the same name included. */
  lemma LateCallbackReachesNobody(t: System, p: nat, r: nat)
    requires Reachable(t) && p in t.pods && PodShape(t.pods[p])
    requires CanBroadcast(t.pods[p], r) && r in t.pods[p].hub.cancelled
    ensures DoBroadcast(t.pods[p], r).hub == t.pods[p].hub
    ensures DoBroadcast(t.pods[p], r).conns == t.pods[p].conns
  {
    ReachableHub(t, p);
    EmptyRoomBroadcast(t.pods[p], r);
  }

  lemma EmptyRoomBroadcast(p: Pod, r: nat)
    requires PodShape(p) && CanBroadcast(p, r) && p.hub.members[r] == {}
    ensures DoBroadcast(p, r).hub == p.hub && DoBroadcast(p, r).conns == p.conns
  {
    assert DoBroadcast(p, r).hub.sends == p.hub.sends;
  }

  /**
   broadcastLocal looks its room up and broadcasts in two critical sections. The room
   object r it found may be any of that name by then: it is either still the one in the
   map, so that both sections act as one, or nobody is in it and nothing happens.
   */
  lemma LookupMayBeStale(t: System, p: nat, r: nat, e: Entry)
    requires Reachable(t) && p in t.pods && r in t.pods[p].subs
    ensures PodShape(t.pods[p])
    ensures var hub, name := t.pods[p].hub, t.pods[p].subs[r].room;
            Broadcast(hub, r, e) == if name in hub.rooms && hub.rooms[name] == r then Broadcast(hub, hub.rooms[name], e)
                                    else hub
  {
    ReachableHub(t, p);
    var hub := t.pods[p].hub;
    if hub.members[r] == {} {
      assert Broadcast(hub, r, e).sends == hub.sends;
    }
  }

  /** The subscription contexts of a room name that are not cancelled, started or about to start. */
  function LiveContexts(p: Pod, name: Bytes): set<nat> {
    set r | r in p.subs && p.subs[r].room == name && r !in p.hub.cancelled
  }

  /** Exactly one live context for a mapped name, none for any other; a mapped room is never empty. */
  lemma OneContextPerRoom(t: System, p: nat, name: Bytes)
    requires Reachable(t) && p in t.pods
    ensures PodShape(t.pods[p])
    ensures var pod := t.pods[p];
            && (name in pod.hub.rooms ==>
                  LiveContexts(pod, name) == {pod.hub.rooms[name]} && pod.hub.members[pod.hub.rooms[name]] != {})
            && (name !in pod.hub.rooms ==> LiveContexts(pod, name) == {})
  {
    ReachableHub(t, p);
  }

  /** subscribe, though outside the mutex, is never called for a room already torn down. */
  lemma SubscribeFindsLiveRoom(t: System, p: nat, c: nat)
    requires Reachable(t) && p in t.pods && CanSubscribe(t.pods[p], c)
    ensures var pod := t.pods[p]; var r := pod.conns[c].phase.r;
            && r !in pod.hub.cancelled && !pod.subs[r].started
            && pod.conns[c].room in pod.hub.rooms && pod.hub.rooms[pod.conns[c].room] == r
  {
    ReachableHub(t, p);
    var pod := t.pods[p];
    var r := pod.conns[c].phase.r;
    assert c in pod.hub.members[r];
  }

  // ----- nothing gets stuck -----

  /**
   From each place of its handler a connection can go on: subscribe, leave, close, or
   finish, the last as soon as the writer has returned; and the writer can go on whenever
   it has something to write or its channel is closed, open channels included.
   */
  lemma ConnectionCanGoOn(t: System, p: nat, c: nat)
    requires Reachable(t) && p in t.pods && PodShape(t.pods[p]) && c in t.pods[p].conns
    ensures var pod := t.pods[p]; var conn, ch := pod.conns[c], pod.hub.sends[c];
            && (conn.phase.Subscribing? ==> CanSubscribe(pod, c))
            && (conn.phase.Serving? ==> CanLeave(pod, c))
            && (conn.phase.Left? ==> CanClose(pod, c))
            && (conn.phase.Closed? && conn.writer.Exited? ==> CanFinish(pod, c))
            && (!conn.phase.Subscribing? && !conn.writer.Exited? && (ch.buffer != [] || ch.closed) ==>
                  CanTake(pod, c) || CanWrite(pod, c) || CanExit(pod, c))
            && (conn.phase.Closed? || conn.phase.Done? ==> ch.closed)
  {
    ReachableConn(t, p, c);
    ReachableHub(t, p);
  }

  /** A cancelled subscription that was started can end, at the latest after the message in hand. */
  lemma CancelledSubscriptionCanEnd(t: System, p: nat, r: nat)
    requires Reachable(t) && p in t.pods && PodShape(t.pods[p]) && r in t.pods[p].hub.cancelled
    ensures r in t.pods[p].subs && t.pods[p].subs[r].started
    ensures CanEnd(t.pods[p], r) || (CanBroadcast(t.pods[p], r) && CanEnd(DoBroadcast(t.pods[p], r), r))
  {
    ReachableHub(t, p);
  }

  /**
   What the environment may do is not restricted: every message queued may be lost, every
   subscription that is not in the callback may end, every write may fail, and every live
   subscription of the right log may be given a message or not. Only an empty room is refused.
   */
  lemma EnvironmentIsFree(s: System, p: nat, r: nat, c: nat, i: nat)
    requires Shape(s) && p in s.pods
    ensures var pod := s.pods[p];
            && (r in pod.subs && i < |pod.subs[r].queue| ==> PodEnabled(pod, SubDrop(r, i)))
            && (r in pod.subs && pod.subs[r].started && pod.subs[r].hand.None? ==> PodEnabled(pod, SubEnd(r)))
            && (c in pod.conns && pod.conns[c].writer.Writing? ==>
                  PodEnabled(pod, WriterWrite(c)) && PodEnabled(pod, WriterFail(c)))
            && (c !in pod.conns && r !in pod.subs ==>
                  forall room :: PodEnabled(pod, JoinRegister(c, room, r)) <==> |room| > 0)
            && (c in pod.conns && pod.conns[c].phase.Serving? ==>
                  forall body, receivers ::
                    (forall t :: t in receivers ==> CanReceive(s, Route(pod.conns[c].room, s.shards), t)) ==>
                      Enabled(s, Publish(p, c, body, receivers)))
  {
  }

  // ----- waiting for the writer -----

  /** Does the step belong to the writer of client c on pod p? */
  predicate IsStepOfWriter(a: Step, p: nat, c: nat) {
    a.Local? && a.p == p &&
    match a.step
    case WriterTake(c') => c' == c
    case WriterWrite(c') => c' == c
    case WriterFail(c') => c' == c
    case WriterExit(c') => c' == c
    case _ => false
  }

  function WriterSteps(steps: seq<Step>, p: nat, c: nat): nat {
    if steps == [] then 0
    else (if IsStepOfWriter(steps[0], p, c) then 1 else 0) + WriterSteps(steps[1..], p, c)
  }

  function Writes(steps: seq<Step>, p: nat, c: nat): nat {
    if steps == [] then 0
    else (if steps[0] == Local(p, WriterWrite(c)) then 1 else 0) + Writes(steps[1..], p, c)
  }

  /** An upper bound on the steps the writer of a closed channel has left. */
  function Rank(w: Writer, buffered: nat): nat {
    if w.Exited? then 0 else 1 + 2 * buffered + |InFlight(w)|
  }

  /** What the writer of a closed channel still has to write. */
  function Backlog(w: Writer, buffered: nat): nat {
    if w.Exited? then 0 else buffered + |InFlight(w)|
  }

  ghost predicate ChannelClosed(s: System, p: nat, c: nat)
    requires Shape(s)
  {
    p in s.pods && c in s.pods[p].conns && s.pods[p].hub.sends[c].closed
  }

  /** Only the writer itself touches a closed channel, and it makes progress with every step. */
  lemma ClosedStepProgress(s: System, a: Step, p: nat, c: nat)
    requires Shape(s) && ChannelClosed(s, p, c) && Enabled(s, a)
    requires MembersInv(s.pods[p]) && ChannelsInv(s.pods[p]) && Pipeline(s.pods[p].conns[c], s.pods[p].hub.sends[c])
    ensures var t := Apply(s, a);
            && ChannelClosed(t, p, c)
            && var b, b' := |s.pods[p].hub.sends[c].buffer|, |t.pods[p].hub.sends[c].buffer|;
               var w, w' := s.pods[p].conns[c].writer, t.pods[p].conns[c].writer;
               && Rank(w', b') + (if IsStepOfWriter(a, p, c) then 1 else 0) <= Rank(w, b)
               && Backlog(w', b') + (if a == Local(p, WriterWrite(c)) then 1 else 0) <= Backlog(w, b)
  {
    if a.Local? && a.p == p {
      ClosedPodProgress(s.pods[p], a.step, c);
    }
  }

  /** The channel of c and its writer are as before. */
  ghost predicate SameWriter(p: Pod, q: Pod, c: nat)
    requires PodShape(p) && PodShape(q) && c in p.conns
  {
    c in q.conns && q.hub.sends[c] == p.hub.sends[c] && q.conns[c].writer == p.conns[c].writer
  }

  lemma ClosedIsLeftAlone(p: Pod, a: PodStep, c: nat)
    requires PodShape(p) && MembersInv(p) && ChannelsInv(p) && PodEnabled(p, a)
    requires c in p.conns && p.hub.sends[c].closed && !IsStepOfWriter(Local(0, a), 0, c)
    ensures SameWriter(p, PodApply(p, a), c)
  {
    if a.SubBroadcast? {
      BroadcastSkips(p, a.r, c);
    }
  }

  lemma BroadcastSkips(p: Pod, r: nat, c: nat)
    requires PodShape(p) && MembersInv(p) && ChannelsInv(p) && CanBroadcast(p, r)
    requires c in p.conns && p.hub.sends[c].closed
    ensures SameWriter(p, DoBroadcast(p, r), c)
  {
    assert c !in p.hub.members[r];
  }

  lemma ClosedPodProgress(p: Pod, a: PodStep, c: nat)
    requires PodShape(p) && MembersInv(p) && ChannelsInv(p) && PodEnabled(p, a)
    requires c in p.conns && p.hub.sends[c].closed && Pipeline(p.conns[c], p.hub.sends[c])
    ensures var q := PodApply(p, a);
            && c in q.conns && q.hub.sends[c].closed
            && var b, b' := |p.hub.sends[c].buffer|, |q.hub.sends[c].buffer|;
               var w, w' := p.conns[c].writer, q.conns[c].writer;
               && Rank(w', b') + (if IsStepOfWriter(Local(0, a), 0, c) then 1 else 0) <= Rank(w, b)
               && Backlog(w', b') + (if a == WriterWrite(c) then 1 else 0) <= Backlog(w, b)
  {
    if !IsStepOfWriter(Local(0, a), 0, c) {
      ClosedIsLeftAlone(p, a, c);
    }
  }

  lemma {:induction false} ClosedRunBounds(s: System, steps: seq<Step>, t: System, p: nat, c: nat)
    requires Inv(s) && Executes(s, steps, t) && ChannelClosed(s, p, c)
    ensures Shape(t) && ChannelClosed(t, p, c)
    ensures var b, b' := |s.pods[p].hub.sends[c].buffer|, |t.pods[p].hub.sends[c].buffer|;
            var w, w' := s.pods[p].conns[c].writer, t.pods[p].conns[c].writer;
            && WriterSteps(steps, p, c) + Rank(w', b') <= Rank(w, b)
            && Writes(steps, p, c) + Backlog(w', b') <= Backlog(w, b)
    decreases steps
  {
    if steps != [] {
      StepKeepsInv(s, steps[0]);
      ClosedStepProgress(s, steps[0], p, c);
      ClosedRunBounds(Apply(s, steps[0]), steps[1..], t, p, c);
    }
  }

  lemma ReachableBounds(s: System, steps: seq<Step>, t: System, p: nat, c: nat)
    requires Reachable(s) && Shape(s) && Executes(s, steps, t) && ChannelClosed(s, p, c)
    ensures Shape(t) && ChannelClosed(t, p, c) && Pipeline(t.pods[p].conns[c], t.pods[p].hub.sends[c])
    ensures t.pods[p].conns[c].phase.Closed? || t.pods[p].conns[c].phase.Done?
    ensures var b, w := |s.pods[p].hub.sends[c].buffer|, s.pods[p].conns[c].writer;
            Writes(steps, p, c) <= Backlog(w, b) && WriterSteps(steps, p, c) <= Rank(w, b)
  {
    ReachableInv(s);
    RunKeepsInv(s, steps, t);
    ClosedRunBounds(s, steps, t, p, c);
  }

  lemma BacklogBound(conn: Conn, ch: Chan<Entry>)
    requires Pipeline(conn, ch)
    ensures Backlog(conn.writer, |ch.buffer|) <= 17 && Rank(conn.writer, |ch.buffer|) <= 34
  {
  }

  /**
   Waiting for the writer terminates: from any reachable state in which the channel is
   closed, every run contains at most 17 more writes and at most 34 more writer steps,
   and as long as the writer has not returned one of its steps is possible.
   */
  lemma WriterEndsAfterClose(s: System, steps: seq<Step>, t: System, p: nat, c: nat)
    requires Reachable(s) && Shape(s) && Executes(s, steps, t) && ChannelClosed(s, p, c)
    ensures Writes(steps, p, c) <= 17 && WriterSteps(steps, p, c) <= 34
    ensures Shape(t) && ChannelClosed(t, p, c)
    ensures !t.pods[p].conns[c].writer.Exited? ==>
              CanTake(t.pods[p], c) || CanWrite(t.pods[p], c) || CanExit(t.pods[p], c)
  {
    ReachableConn(s, p, c);
    BacklogBound(s.pods[p].conns[c], s.pods[p].hub.sends[c]);
    ReachableBounds(s, steps, t, p, c);
  }
}
