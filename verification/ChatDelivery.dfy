/**
 The account of every message: between its publication and the clients' channels nothing
 appears, disappears or is repeated except by the steps that say so.
 */
module ChatDelivery {
  import opened Common
  import opened Routing
  import opened HubModel
  import opened ChatSystem
  import opened ChatInvariant
  import opened ChatTheorems

  // ----- one step -----

  /** How often e waits in the subscription of room object r on pod q. */
  function Waiting(s: System, q: nat, r: nat, e: Entry): nat {
    if q in s.pods && r in s.pods[q].subs then multiset(Pending(s.pods[q].subs[r]))[e] else 0
  }

  /** How often client d of pod q has accepted e. */
  function AcceptedBy(s: System, q: nat, d: nat, e: Entry): nat {
    if q in s.pods && d in s.pods[q].conns then multiset(s.pods[q].conns[d].accepted)[e] else 0
  }

  ghost function PublishedEntry(s: System, a: Step): Entry
    requires Shape(s) && a.Publish? && Enabled(s, a)
  {
    var room := s.pods[a.p].conns[a.c].room;
    Entry(|Log(s.logs, Route(room, s.shards))|, Message(room, a.body))
  }

  /** What happens to an entry in a subscription: it is queued, lost, or broadcast. */
  datatype Fate = Fate(queued: nat, lost: nat, broadcast: nat) {
    function Plus(f: Fate): Fate {
      Fate(queued + f.queued, lost + f.lost, broadcast + f.broadcast)
    }
  }

  /** What a step of pod p does to e in subscription r of this pod. */
  ghost function PodFate(p: Pod, a: PodStep, r: nat, e: Entry): Fate
    requires PodShape(p) && PodEnabled(p, a)
  {
    match a
    case SubDrop(r', i) => Fate(0, if r' == r && p.subs[r].queue[i] == e then 1 else 0, 0)
    case SubEnd(r') => Fate(0, if r' == r then multiset(p.subs[r].queue)[e] else 0, 0)
    case SubBroadcast(r') => Fate(0, 0, if r' == r && p.subs[r].hand == Some(e) then 1 else 0)
    case _ => Fate(0, 0, 0)
  }

  ghost function StepFate(s: System, a: Step, q: nat, r: nat, e: Entry): Fate
    requires Shape(s) && Enabled(s, a)
  {
    match a
    case Local(p, step) => if p == q then PodFate(s.pods[q], step, r, e) else Fate(0, 0, 0)
    case Publish(_, _, _, receivers) => Fate(if (q, r) in receivers && PublishedEntry(s, a) == e then 1 else 0, 0, 0)
  }

  /** Does the step put e on the channel of client d of pod q? Exactly a broadcast to it with space does. */
  ghost predicate StepReaches(s: System, a: Step, q: nat, d: nat, e: Entry)
    requires Shape(s) && Enabled(s, a)
  {
    && a.Local? && a.p == q && a.step.SubBroadcast?
    && s.pods[q].subs[a.step.r].hand == Some(e) && Accepts(s.pods[q].hub, a.step.r, d)
  }

  lemma CutMultiset(s: seq<Entry>, i: nat)
    requires i < |s|
    ensures multiset(s[..i] + s[i + 1..]) == multiset(s) - multiset{s[i]}
  {
    assert s == s[..i] + ([s[i]] + s[i + 1..]);
  }

  lemma DropConserves(p: Pod, r: nat, i: nat, e: Entry)
    requires PodShape(p) && CanDrop(p, r, i)
    ensures multiset(Pending(DoDrop(p, r, i).subs[r]))[e] + (if p.subs[r].queue[i] == e then 1 else 0)
         == multiset(Pending(p.subs[r]))[e]
  {
    CutMultiset(p.subs[r].queue, i);
  }

  lemma ReceiveConserves(p: Pod, r: nat)
    requires PodShape(p) && CanReceiveNext(p, r)
    ensures Pending(DoReceive(p, r).subs[r]) == Pending(p.subs[r])
  {
  }

  lemma BroadcastConserves(p: Pod, r: nat, e: Entry)
    requires PodShape(p) && CanBroadcast(p, r)
    ensures multiset(Pending(DoBroadcast(p, r).subs[r]))[e] + (if p.subs[r].hand == Some(e) then 1 else 0)
         == multiset(Pending(p.subs[r]))[e]
  {
    assert Pending(DoBroadcast(p, r).subs[r]) == p.subs[r].queue;
  }

  lemma EndConserves(p: Pod, r: nat, e: Entry)
    requires PodShape(p) && CanEnd(p, r)
    ensures Pending(DoEnd(p, r).subs[r]) == [] && Pending(p.subs[r]) == p.subs[r].queue
  {
  }

  /** A pod as seen from one of its subscriptions. */
  function WaitingIn(p: Pod, r: nat, e: Entry): nat {
    if r in p.subs then multiset(Pending(p.subs[r]))[e] else 0
  }

  lemma RegisterConserves(p: Pod, c: nat, room: Bytes, r': nat, r: nat, e: Entry)
    requires PodShape(p) && CanRegister(p, c, room, r')
    ensures WaitingIn(DoRegister(p, c, room, r'), r, e) == WaitingIn(p, r, e)
  {
  }

  /** A step that is not about the pending entries of r. */
  lemma OtherStepConserves(p: Pod, a: PodStep, r: nat, e: Entry)
    requires PodShape(p) && PodEnabled(p, a) && !a.JoinRegister?
    requires !((a.SubReceive? || a.SubBroadcast? || a.SubDrop? || a.SubEnd?) && a.r == r)
    ensures WaitingIn(PodApply(p, a), r, e) == WaitingIn(p, r, e)
  {
    assert r in PodApply(p, a).subs <==> r in p.subs;
  }

  lemma PodStepConserves(p: Pod, a: PodStep, r: nat, e: Entry)
    requires PodShape(p) && PodEnabled(p, a)
    ensures var f := PodFate(p, a, r, e);
            WaitingIn(PodApply(p, a), r, e) + f.lost + f.broadcast == WaitingIn(p, r, e)
  {
    if a.JoinRegister? {
      RegisterConserves(p, a.c, a.room, a.r, r, e);
    } else if !((a.SubReceive? || a.SubBroadcast? || a.SubDrop? || a.SubEnd?) && a.r == r) {
      OtherStepConserves(p, a, r, e);
    } else if a.SubReceive? {
      ReceiveConserves(p, r);
    } else if a.SubBroadcast? {
      BroadcastConserves(p, r, e);
    } else if a.SubDrop? {
      DropConserves(p, r, a.i, e);
    } else {
      EndConserves(p, r, e);
    }
  }

  lemma PublishConserves(s: System, a: Step, q: nat, r: nat, e: Entry)
    requires Shape(s) && a.Publish? && Enabled(s, a)
    ensures Waiting(Apply(s, a), q, r, e) == Waiting(s, q, r, e) + StepFate(s, a, q, r, e).queued
  {
    assert (q, r) in a.receivers ==> CanReceive(s, Route(s.pods[a.p].conns[a.c].room, s.shards), (q, r));
    if q in s.pods && r in s.pods[q].subs {
      EnqueuedPending(s.pods[q], q, a.receivers, PublishedEntry(s, a), r);
    }
  }

  lemma LocalConserves(s: System, p: nat, step: PodStep, q: nat, r: nat, e: Entry)
    requires Shape(s) && Enabled(s, Local(p, step))
    ensures var f := StepFate(s, Local(p, step), q, r, e);
            Waiting(Apply(s, Local(p, step)), q, r, e) + f.lost + f.broadcast == Waiting(s, q, r, e) + f.queued
  {
    if p == q {
      PodStepConserves(s.pods[q], step, r, e);
    }
  }

  lemma StepConserves(s: System, a: Step, q: nat, r: nat, e: Entry)
    requires Shape(s) && Enabled(s, a)
    ensures var f := StepFate(s, a, q, r, e);
            Waiting(Apply(s, a), q, r, e) + f.lost + f.broadcast == Waiting(s, q, r, e) + f.queued
  {
    match a
    case Local(p, step) => LocalConserves(s, p, step, q, r, e);
    case Publish(p, c, body, receivers) => PublishConserves(s, a, q, r, e);
  }

  lemma PodStepReaches(p: Pod, a: PodStep, d: nat, e: Entry)
    requires PodShape(p) && PodEnabled(p, a) && d in p.conns
    ensures var q := PodApply(p, a);
            && d in q.conns
            && q.conns[d].accepted == p.conns[d].accepted + if a.SubBroadcast? && Accepts(p.hub, a.r, d)
                                                            then [p.subs[a.r].hand.value] else []
  {
  }

  lemma StepReachesExactly(s: System, a: Step, q: nat, d: nat, e: Entry)
    requires Shape(s) && Enabled(s, a)
    ensures AcceptedBy(Apply(s, a), q, d, e) == AcceptedBy(s, q, d, e) + if StepReaches(s, a, q, d, e) then 1 else 0
  {
    if a.Local? && a.p == q {
      if d in s.pods[q].conns {
        PodStepReaches(s.pods[q], a.step, d, e);
      } else {
        NewcomerHasNothing(s.pods[q], a.step, d);
      }
    }
  }

  lemma NewcomerHasNothing(p: Pod, a: PodStep, d: nat)
    requires PodShape(p) && PodEnabled(p, a) && d !in p.conns
    ensures d in PodApply(p, a).conns ==> PodApply(p, a).conns[d].accepted == []
    ensures a.SubBroadcast? ==> !Accepts(p.hub, a.r, d)
  {
  }

  // ----- runs -----

  /** What happens to e in subscription r of pod q in the course of a run. */
  ghost function RunFate(s: System, steps: seq<Step>, t: System, q: nat, r: nat, e: Entry): Fate
    requires Executes(s, steps, t)
    decreases steps
  {
    if steps == [] then Fate(0, 0, 0)
    else StepFate(s, steps[0], q, r, e).Plus(RunFate(Apply(s, steps[0]), steps[1..], t, q, r, e))
  }

  /** How often a run puts e on the channel of client d of pod q. */
  ghost function RunReaches(s: System, steps: seq<Step>, t: System, q: nat, d: nat, e: Entry): nat
    requires Executes(s, steps, t)
    decreases steps
  {
    if steps == [] then 0
    else (if StepReaches(s, steps[0], q, d, e) then 1 else 0) + RunReaches(Apply(s, steps[0]), steps[1..], t, q, d, e)
  }

  /** Over every run: what waited or was queued is what waits, was lost or was broadcast. */
  lemma {:induction false} EntriesAreConserved(s: System, steps: seq<Step>, t: System, q: nat, r: nat, e: Entry)
    requires Executes(s, steps, t)
    ensures var f := RunFate(s, steps, t, q, r, e);
            Waiting(t, q, r, e) + f.lost + f.broadcast == Waiting(s, q, r, e) + f.queued
    decreases steps
  {
    if steps != [] {
      StepConserves(s, steps[0], q, r, e);
      EntriesAreConserved(Apply(s, steps[0]), steps[1..], t, q, r, e);
    }
  }

  /** Over every run: a client accepts an entry as often as it is a member with space when that entry is broadcast. */
  lemma {:induction false} AcceptsAreConserved(s: System, steps: seq<Step>, t: System, q: nat, d: nat, e: Entry)
    requires Executes(s, steps, t)
    ensures AcceptedBy(t, q, d, e) == AcceptedBy(s, q, d, e) + RunReaches(s, steps, t, q, d, e)
    decreases steps
  {
    if steps != [] {
      StepReachesExactly(s, steps[0], q, d, e);
      AcceptsAreConserved(Apply(s, steps[0]), steps[1..], t, q, d, e);
    }
  }

  // ----- one published message -----

  /** The place of e in the log of its room is taken. */
  predicate InLog(s: System, e: Entry) {
    e.pos < |Log(s.logs, Route(e.msg.room, s.shards))|
  }

  lemma StepKeepsLogged(s: System, a: Step, e: Entry)
    requires Shape(s) && Enabled(s, a) && InLog(s, e)
    ensures InLog(Apply(s, a), e)
    ensures forall q, r :: StepFate(s, a, q, r, e).queued == 0
  {
  }

  /** An entry is queued only by the step that publishes it. */
  lemma {:induction false} NeverQueuedAgain(s: System, steps: seq<Step>, t: System, q: nat, r: nat, e: Entry)
    requires Executes(s, steps, t) && Shape(s) && InLog(s, e)
    ensures RunFate(s, steps, t, q, r, e).queued == 0
    decreases steps
  {
    if steps != [] {
      StepKeepsLogged(s, steps[0], e);
      NeverQueuedAgain(Apply(s, steps[0]), steps[1..], t, q, r, e);
    }
  }

  lemma OrderedOnce(s: seq<Entry>, e: Entry)
    requires Ascending(s)
    ensures multiset(s)[e] <= 1
    decreases |s|
  {
    if s != [] {
      var last := |s| - 1;
      OrderedOnce(s[..last], e);
      assert s == s[..last] + [s[last]];
      assert s[last] == e ==> e !in s[..last];
    }
  }

  /** Before it is published an entry waits nowhere and nobody has accepted it. */
  lemma NotYetAnywhere(s: System, a: Step, q: nat, r: nat, d: nat)
    requires Inv(s) && a.Publish? && Enabled(s, a)
    requires (q, r) in a.receivers
    ensures Waiting(s, q, r, PublishedEntry(s, a)) == 0
    ensures AcceptedBy(s, q, d, PublishedEntry(s, a)) == 0
  {
    var e := PublishedEntry(s, a);
    assert CanReceive(s, Route(s.pods[a.p].conns[a.c].room, s.shards), (q, r));
    var sub := s.pods[q].subs[r];
    assert PodInv(s.pods[q], s.shards, s.logs);
    assert FromLog(Pending(sub), Log(s.logs, Route(sub.room, s.shards)));
    assert e !in Pending(sub);
    if d in s.pods[q].conns {
      AcceptedElsewhere(s, q, d, e);
    }
  }

  /** What a client has accepted is in the log of the entry's own room. */
  lemma AcceptedElsewhere(s: System, q: nat, d: nat, e: Entry)
    requires Inv(s) && q in s.pods && d in s.pods[q].conns && !InLog(s, e)
    ensures e !in s.pods[q].conns[d].accepted
  {
    var conn := s.pods[q].conns[d];
    var log := Log(s.logs, Route(conn.room, s.shards));
    assert PodInv(s.pods[q], s.shards, s.logs);
    assert FromLog(conn.accepted, log);
    forall i | 0 <= i < |conn.accepted| ensures conn.accepted[i] != e {
      assert Route(log[conn.accepted[i].pos].room, s.shards) == Route(conn.room, s.shards);
    }
  }

  lemma PublishLogs(s: System, a: Step, q: nat, r: nat)
    requires Shape(s) && a.Publish? && Enabled(s, a) && (q, r) in a.receivers
    ensures InLog(Apply(s, a), PublishedEntry(s, a))
    ensures StepFate(s, a, q, r, PublishedEntry(s, a)) == Fate(1, 0, 0)
  {
  }

  /** From an entry waiting once whose place in the log is taken: one fate in any run. */
  lemma OneFate(s: System, steps: seq<Step>, t: System, q: nat, r: nat, e: Entry)
    requires Shape(s) && Executes(s, steps, t) && InLog(s, e) && Waiting(s, q, r, e) == 1
    ensures var f := RunFate(s, steps, t, q, r, e); Waiting(t, q, r, e) + f.lost + f.broadcast == 1
  {
    EntriesAreConserved(s, steps, t, q, r, e);
    NeverQueuedAgain(s, steps, t, q, r, e);
  }

  lemma QueuedOnce(s: System, a: Step, q: nat, r: nat)
    requires Shape(s) && a.Publish? && Enabled(s, a) && (q, r) in a.receivers
    requires Waiting(s, q, r, PublishedEntry(s, a)) == 0
    ensures Waiting(Apply(s, a), q, r, PublishedEntry(s, a)) == 1
  {
    PublishLogs(s, a, q, r);
    PublishConserves(s, a, q, r, PublishedEntry(s, a));
  }

  /** NotYetAnywhere in a reachable state. */
  lemma ReachableNotYet(s: System, a: Step, q: nat, r: nat, d: nat)
    requires Reachable(s) && Shape(s) && a.Publish? && Enabled(s, a) && (q, r) in a.receivers
    ensures Waiting(s, q, r, PublishedEntry(s, a)) == 0
    ensures AcceptedBy(s, q, d, PublishedEntry(s, a)) == 0
  {
    ReachableInv(s);
    NotYetAnywhere(s, a, q, r, d);
  }

  lemma AcceptedOnceInRun(s: System, a: Step, steps: seq<Step>, t: System, q: nat, d: nat, e: Entry)
    requires Reachable(s) && Shape(s) && Enabled(s, a) && Executes(Apply(s, a), steps, t)
    ensures AcceptedBy(t, q, d, e) <= 1
  {
    ReachableInv(s);
    StepKeepsInv(s, a);
    RunKeepsInv(Apply(s, a), steps, t);
    AcceptedOnce(t, q, d, e);
  }

  /**
   The account of one message and one of the subscriptions it was delivered to, after any
   further run: it waits there, was lost there, or was broadcast there, exactly one of
   these and exactly once.
   */
  lemma PublishedEntryIsAccountedFor(s: System, a: Step, steps: seq<Step>, t: System, q: nat, r: nat)
    requires Reachable(s) && Shape(s) && a.Publish? && Enabled(s, a) && (q, r) in a.receivers
    requires Executes(Apply(s, a), steps, t)
    ensures var e, f := PublishedEntry(s, a), RunFate(Apply(s, a), steps, t, q, r, PublishedEntry(s, a));
            Waiting(t, q, r, e) + f.lost + f.broadcast == 1
  {
    ReachableNotYet(s, a, q, r, 0);
    QueuedOnce(s, a, q, r);
    PublishLogs(s, a, q, r);
    OneFate(Apply(s, a), steps, t, q, r, PublishedEntry(s, a));
  }

  /**
   And of its clients: each has accepted it at most once, namely if it was in the room
   object with buffer space when the message was broadcast, however much came in between.
   */
  lemma AcceptedExactlyWhenOffered(s: System, a: Step, steps: seq<Step>, t: System, q: nat, r: nat, d: nat)
    requires Reachable(s) && Shape(s) && a.Publish? && Enabled(s, a) && (q, r) in a.receivers
    requires Executes(Apply(s, a), steps, t)
    ensures var e := PublishedEntry(s, a);
            AcceptedBy(t, q, d, e) == RunReaches(Apply(s, a), steps, t, q, d, e) <= 1
  {
    ReachableNotYet(s, a, q, r, d);
    StepReachesExactly(s, a, q, d, PublishedEntry(s, a));
    AcceptsAreConserved(Apply(s, a), steps, t, q, d, PublishedEntry(s, a));
    AcceptedOnceInRun(s, a, steps, t, q, d, PublishedEntry(s, a));
  }

  lemma AcceptedOnce(t: System, q: nat, d: nat, e: Entry)
    requires Inv(t)
    ensures AcceptedBy(t, q, d, e) <= 1
  {
    if q in t.pods && d in t.pods[q].conns {
      assert PodInv(t.pods[q], t.shards, t.logs);
      OrderedOnce(t.pods[q].conns[d].accepted, e);
    }
  }

  /** The pod of a first client, subscribed. */
  lemma FirstClient(room: Bytes) returns (p: Pod, q: Pod)
    requires room != []
    ensures PodShape(EMPTY_POD) && CanRegister(EMPTY_POD, 0, room, 0) && p == DoRegister(EMPTY_POD, 0, room, 0)
    ensures CanSubscribe(p, 0) && q == DoSubscribe(p, 0)
    ensures 0 in q.conns && q.conns[0].phase.Serving? && q.conns[0].room == room
    ensures 0 in q.subs && q.subs[0].started && !q.subs[0].ended && q.subs[0].room == room
  {
    p := DoRegister(EMPTY_POD, 0, room, 0);
    q := DoSubscribe(p, 0);
  }

  lemma PodStepReachable(s: System, p: nat, a: PodStep, before: Pod, after: Pod) returns (t: System)
    requires Reachable(s) && Shape(s) && p in s.pods && s.pods[p] == before
    requires PodShape(before) && PodEnabled(before, a) && after == PodApply(before, a)
    ensures Reachable(t) && Shape(t) && p in t.pods && t.pods[p] == after && t.shards == s.shards
  {
    t := Apply(s, Local(p, a));
    StepReachable(s, Local(p, a));
  }

  lemma InitReachable(s: System)
    requires Init(s)
    ensures Reachable(s) && Shape(s)
  {
    InitInv(s);
    assert Executes(s, [], s);
  }

  /** A served client whose own subscription is live can publish to it. */
  lemma CanPublishToItself(s: System, room: Bytes, body: Bytes)
    requires Shape(s) && 0 in s.pods && 0 in s.pods[0].conns && 0 in s.pods[0].subs
    requires s.pods[0].conns[0].phase.Serving? && s.pods[0].conns[0].room == room
    requires s.pods[0].subs[0].started && !s.pods[0].subs[0].ended && s.pods[0].subs[0].room == room
    ensures Enabled(s, Publish(0, 0, body, {(0, 0)}))
  {
    assert CanReceive(s, Route(room, s.shards), (0, 0));
  }

  /** A pod two steps after the start. */
  lemma TwoStepsReachable(n: ShardCount, a: PodStep, b: PodStep, p: Pod, q: Pod) returns (s: System)
    requires PodShape(EMPTY_POD) && PodEnabled(EMPTY_POD, a) && p == PodApply(EMPTY_POD, a)
    requires PodEnabled(p, b) && q == PodApply(p, b)
    ensures Reachable(s) && Shape(s) && 0 in s.pods && s.pods[0] == q && s.shards == n
  {
    s := System(n, map[0 := EMPTY_POD], map[]);
    InitReachable(s);
    s := PodStepReachable(s, 0, a, EMPTY_POD, p);
    s := PodStepReachable(s, 0, b, p, q);
  }

  /** Such a step exists: the first client of a room, once subscribed, can publish to itself. */
  lemma DeliveryHappens(n: ShardCount, room: Bytes, body: Bytes) returns (s: System, a: Step)
    requires room != []
    ensures Reachable(s) && Shape(s) && a.Publish? && Enabled(s, a) && a.body == body && (0, 0) in a.receivers
  {
    var p, q := FirstClient(room);
    s := TwoStepsReachable(n, JoinRegister(0, room, 0), JoinSubscribe(0), p, q);
    a := Publish(0, 0, body, {(0, 0)});
    CanPublishToItself(s, room, body);
  }

  // ----- waiting entries can move -----

  ghost predicate EndedIsEmpty(s: System) {
    forall p, r :: p in s.pods && r in s.pods[p].subs && s.pods[p].subs[r].ended ==> Pending(s.pods[p].subs[r]) == []
  }

  lemma PodStepKeepsEnded(p: Pod, a: PodStep, r: nat)
    requires PodShape(p) && PodEnabled(p, a) && (r in p.subs && p.subs[r].ended ==> Pending(p.subs[r]) == [])
    requires r in PodApply(p, a).subs && PodApply(p, a).subs[r].ended
    ensures Pending(PodApply(p, a).subs[r]) == []
  {
  }

  lemma StepKeepsEnded(s: System, a: Step)
    requires Shape(s) && EndedIsEmpty(s) && Enabled(s, a)
    ensures EndedIsEmpty(Apply(s, a))
  {
    var t := Apply(s, a);
    forall p, r | p in t.pods && r in t.pods[p].subs && t.pods[p].subs[r].ended
      ensures Pending(t.pods[p].subs[r]) == []
    {
      match a
      case Local(q, step) =>
        if p == q {
          PodStepKeepsEnded(s.pods[p], step, r);
        }
      case Publish(q, c, body, receivers) =>
        EnqueuedPending(s.pods[p], p, receivers, PublishedEntry(s, a), r);
        assert (p, r) in receivers ==> CanReceive(s, Route(s.pods[q].conns[c].room, s.shards), (p, r));
    }
  }

  lemma {:induction false} RunKeepsEnded(s: System, steps: seq<Step>, t: System)
    requires Executes(s, steps, t) && EndedIsEmpty(s)
    ensures EndedIsEmpty(t)
    decreases steps
  {
    if steps != [] {
      StepKeepsEnded(s, steps[0]);
      RunKeepsEnded(Apply(s, steps[0]), steps[1..], t);
    }
  }

  /** A waiting entry is never stuck: its subscription can receive the next one or broadcast the one in hand. */
  lemma WaitingEntryCanMove(t: System, q: nat, r: nat, e: Entry)
    requires Reachable(t) && Waiting(t, q, r, e) > 0
    ensures CanReceiveNext(t.pods[q], r) || CanBroadcast(t.pods[q], r)
  {
    var s, steps :| Init(s) && Executes(s, steps, t);
    RunKeepsEnded(s, steps, t);
    ReachableHub(t, q);
    assert e in Pending(t.pods[q].subs[r]);
  }

  // ----- the sender's own messages -----

  /** c is being served in room object r, or has left for good. */
  ghost predicate AtHome(s: System, p: nat, c: nat, r: nat)
    requires Shape(s)
  {
    && p in s.pods && c in s.pods[p].conns && r in s.pods[p].hub.members
    && var phase := s.pods[p].conns[c].phase;
       || (phase.Serving? && c in s.pods[p].hub.members[r])
       || Gone(phase)
  }

  lemma RoomObjectsStay(p: Pod, a: PodStep, r: nat)
    requires PodShape(p) && PodEnabled(p, a) && r in p.hub.members
    ensures r in PodApply(p, a).hub.members
  {
  }

  predicate Gone(phase: Phase) {
    phase.Left? || phase.Closed? || phase.Done?
  }

  /** Steps that move no connection on. */
  predicate KeepsPhases(a: PodStep) {
    a.SubReceive? || a.SubBroadcast? || a.SubDrop? || a.SubEnd? || IsWriterStep(a)
  }

  lemma PhasesStay(p: Pod, a: PodStep, c: nat)
    requires PodShape(p) && PodEnabled(p, a) && KeepsPhases(a) && c in p.conns
    ensures c in PodApply(p, a).conns && PodApply(p, a).conns[c].phase == p.conns[c].phase
    ensures PodApply(p, a).hub.members == p.hub.members
  {
    if IsWriterStep(a) {
      WriterStepEffect(p, a);
    }
  }

  lemma PodStepKeepsServing(p: Pod, a: PodStep, c: nat)
    requires PodShape(p) && PodEnabled(p, a) && c in p.conns && (p.conns[c].phase.Serving? || Gone(p.conns[c].phase))
    ensures c in PodApply(p, a).conns
    ensures if Gone(p.conns[c].phase) || a == LeaveRoom(c) then Gone(PodApply(p, a).conns[c].phase)
            else PodApply(p, a).conns[c].phase.Serving?
  {
    if KeepsPhases(a) {
      PhasesStay(p, a, c);
    } else {
      PhaseStepKeepsServing(p, a, c);
    }
  }

  lemma PhaseStepKeepsServing(p: Pod, a: PodStep, c: nat)
    requires PodShape(p) && PodEnabled(p, a) && !KeepsPhases(a)
    requires c in p.conns && (p.conns[c].phase.Serving? || Gone(p.conns[c].phase))
    ensures c in PodApply(p, a).conns
    ensures if Gone(p.conns[c].phase) || a == LeaveRoom(c) then Gone(PodApply(p, a).conns[c].phase)
            else PodApply(p, a).conns[c].phase.Serving?
  {
  }

  lemma PodStepKeepsHome(p: Pod, a: PodStep, c: nat, r: nat)
    requires PodShape(p) && PodEnabled(p, a) && r in p.hub.members && c in p.hub.members[r] && a != LeaveRoom(c)
    requires c in p.conns && r in PodApply(p, a).hub.members
    ensures c in PodApply(p, a).hub.members[r]
  {
    if KeepsPhases(a) {
      PhasesStay(p, a, c);
    } else {
      PhaseStepKeepsHome(p, a, c, r);
    }
  }

  lemma PhaseStepKeepsHome(p: Pod, a: PodStep, c: nat, r: nat)
    requires PodShape(p) && PodEnabled(p, a) && !KeepsPhases(a)
    requires r in p.hub.members && c in p.hub.members[r] && a != LeaveRoom(c)
    requires r in PodApply(p, a).hub.members
    ensures c in PodApply(p, a).hub.members[r]
  {
  }

  lemma StepKeepsHome(s: System, a: Step, p: nat, c: nat, r: nat)
    requires Shape(s) && AtHome(s, p, c, r) && Enabled(s, a)
    ensures AtHome(Apply(s, a), p, c, r)
  {
    if a.Local? && a.p == p {
      RoomObjectsStay(s.pods[p], a.step, r);
      PodStepKeepsServing(s.pods[p], a.step, c);
      if s.pods[p].conns[c].phase.Serving? && a.step != LeaveRoom(c) {
        PodStepKeepsHome(s.pods[p], a.step, c, r);
      }
    }
  }

  lemma {:induction false} RunKeepsHome(s: System, steps: seq<Step>, t: System, p: nat, c: nat, r: nat)
    requires Shape(s) && Executes(s, steps, t) && AtHome(s, p, c, r)
    ensures Shape(t) && AtHome(t, p, c, r)
    decreases steps
  {
    if steps != [] {
      StepKeepsHome(s, steps[0], p, c, r);
      RunKeepsHome(Apply(s, steps[0]), steps[1..], t, p, c, r);
    }
  }

  /**
   A live subscription on the sender's own pod that a message is delivered to is that of
   the room object the sender is in, and the sender is still in it whenever the message is
   broadcast, unless it has left by then: with space in its buffer it hears itself.
   */
  lemma SenderHearsItself(s: System, a: Step, r: nat, steps: seq<Step>, t: System)
    requires Reachable(s) && Shape(s) && a.Publish? && Enabled(s, a) && (a.p, r) in a.receivers
    requires r !in s.pods[a.p].hub.cancelled && Executes(Apply(s, a), steps, t)
    ensures Shape(t) && a.p in t.pods && a.c in t.pods[a.p].conns && r in t.pods[a.p].hub.members
    ensures t.pods[a.p].conns[a.c].phase.Serving? ==>
              a.c in t.pods[a.p].hub.members[r]
              && (HasSpace(t.pods[a.p].hub.sends[a.c]) ==> Accepts(t.pods[a.p].hub, r, a.c))
  {
    var pod := s.pods[a.p];
    var room := pod.conns[a.c].room;
    assert CanReceive(s, Route(room, s.shards), (a.p, r));
    RouteInjective(room, pod.subs[r].room, s.shards);
    ReachableHub(s, a.p);
    assert a.c in pod.hub.members[r];
    RunKeepsHome(Apply(s, a), steps, t, a.p, a.c, r);
  }
}
