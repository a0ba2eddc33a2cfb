/** What every reachable state of the chat system satisfies, and why each step keeps it. */
module ChatInvariant {
  import opened Common
  import opened Routing
  import opened HubModel
  import opened ChatSystem

  predicate Active(phase: Phase) {
    phase.Subscribing? || phase.Serving?
  }

  /** A name in the map has one live, non-empty room object; every other object is cancelled and empty. */
  ghost predicate RoomsInv(p: Pod)
    requires PodShape(p)
  {
    && (forall n :: n in p.hub.rooms ==>
          var r := p.hub.rooms[n];
          r in p.subs && p.subs[r].room == n && r !in p.hub.cancelled && p.hub.members[r] != {})
    && (forall r :: r in p.subs && r !in p.hub.cancelled ==>
          p.subs[r].room in p.hub.rooms && p.hub.rooms[p.subs[r].room] == r)
    && (forall r :: r in p.hub.cancelled ==> r in p.subs && p.hub.members[r] == {})
  }

  ghost predicate MembersAreActive(p: Pod)
    requires PodShape(p)
  {
    forall r, c :: r in p.subs && c in p.hub.members[r] ==>
      c in p.conns && Active(p.conns[c].phase) && p.conns[c].room == p.subs[r].room
  }

  ghost predicate ActivesAreMembers(p: Pod)
    requires PodShape(p)
  {
    forall c :: c in p.conns && Active(p.conns[c].phase) ==>
      p.conns[c].room in p.hub.rooms && c in p.hub.members[p.hub.rooms[p.conns[c].room]]
  }

  /** Room objects hold exactly the clients between their join and their leave. */
  ghost predicate MembersInv(p: Pod)
    requires PodShape(p)
  {
    MembersAreActive(p) && ActivesAreMembers(p)
  }

  /** A subscription not yet started belongs to a client that is still inside join, and in the room. */
  ghost predicate OpeningInv(p: Pod)
    requires PodShape(p)
  {
    && (forall r :: r in p.subs && !p.subs[r].started ==>
          && p.subs[r].opener in p.conns && p.conns[p.subs[r].opener].phase == Subscribing(r)
          && p.subs[r].queue == [] && p.subs[r].hand.None?)
    && (forall c :: c in p.conns && p.conns[c].phase.Subscribing? ==>
          var r := p.conns[c].phase.r;
          r in p.subs && !p.subs[r].started && p.subs[r].opener == c && c in p.hub.members[r])
  }

  ghost predicate ChannelsInv(p: Pod)
    requires PodShape(p)
  {
    && !p.panicked
    && (forall c :: c in p.conns ==>
          (p.hub.sends[c].closed <==> p.conns[c].phase.Closed? || p.conns[c].phase.Done?))
  }

  function InFlight(w: Writer): seq<Entry> {
    if w.Writing? then [w.entry] else []
  }

  /** Nothing between the hub and the socket is lost, repeated or reordered before a write error. */
  ghost predicate Pipeline(conn: Conn, ch: Chan<Entry>) {
    && ch.capacity == SEND_CAPACITY && |ch.buffer| <= SEND_CAPACITY
    && (conn.writer.NotStarted? <==> conn.phase.Subscribing?)
    && (conn.writer == Exited(false) ==> ch.closed && ch.buffer == [])
    && (conn.phase.Done? ==> conn.writer.Exited?)
    && if conn.writer == Exited(true) then conn.written < conn.accepted
       else conn.accepted == conn.written + InFlight(conn.writer) + ch.buffer
  }

  ghost predicate PipelinesInv(p: Pod)
    requires PodShape(p)
  {
    forall c :: c in p.conns ==> Pipeline(p.conns[c], p.hub.sends[c])
  }

  ghost predicate Ascending(s: seq<Entry>) {
    forall i, j :: 0 <= i < j < |s| ==> s[i].pos < s[j].pos
  }

  ghost predicate FromLog(s: seq<Entry>, log: seq<Message>) {
    forall i :: 0 <= i < |s| ==> s[i].pos < |log| && log[s[i].pos] == s[i].msg
  }

  function Pending(sub: Sub): seq<Entry> {
    (if sub.hand.Some? then [sub.hand.value] else []) + sub.queue
  }

  /** Pending and accepted entries come from the log of the right room, in its order, none twice. */
  ghost predicate SourceInv(p: Pod, n: ShardCount, logs: map<LogKey, seq<Message>>) {
    && (forall r :: r in p.subs ==> FromLog(Pending(p.subs[r]), Log(logs, Route(p.subs[r].room, n))))
    && (forall r :: r in p.subs ==> Ascending(Pending(p.subs[r])))
    && (forall c :: c in p.conns ==> FromLog(p.conns[c].accepted, Log(logs, Route(p.conns[c].room, n))))
    && (forall c :: c in p.conns ==> Ascending(p.conns[c].accepted))
  }

  /** What a member of a room object has accepted precedes all that is pending for the object. */
  ghost predicate MemberOrderInv(p: Pod)
    requires PodShape(p)
  {
    forall r, c :: r in p.subs && c in p.hub.members[r] && c in p.conns ==>
      Ascending(p.conns[c].accepted + Pending(p.subs[r]))
  }

  ghost predicate DeliveryInv(p: Pod, n: ShardCount, logs: map<LogKey, seq<Message>>)
    requires PodShape(p)
  {
    SourceInv(p, n, logs) && MemberOrderInv(p)
  }

  ghost predicate HubInv(p: Pod)
    requires PodShape(p)
  {
    RoomsInv(p) && MembersInv(p) && OpeningInv(p) && ChannelsInv(p)
  }

  ghost predicate PodInv(p: Pod, n: ShardCount, logs: map<LogKey, seq<Message>>) {
    PodShape(p) && HubInv(p) && PipelinesInv(p) && DeliveryInv(p, n, logs)
  }

  /** A log holds only messages published to the room it belongs to. */
  ghost predicate LogsInv(s: System) {
    forall key, i :: key in s.logs && 0 <= i < |s.logs[key]| ==> Route(s.logs[key][i].room, s.shards) == key
  }

  ghost predicate Inv(s: System) {
    LogsInv(s) && forall p :: p in s.pods ==> PodInv(s.pods[p], s.shards, s.logs)
  }

  // ----- the hub part -----

  /** Client c has entered the room object home under its name, or is the only member of a new one. */
  ghost predicate Entered(p: Pod, q: Pod, c: nat, room: Bytes, r: nat, home: nat) {
    && c !in p.conns && r !in p.subs
    && q.hub.cancelled == p.hub.cancelled && q.panicked == p.panicked
    && q.hub.sends == p.hub.sends[c := Chan(SEND_CAPACITY, [], false)]
    && if room in p.hub.rooms then
         && home == p.hub.rooms[room] && home in p.subs && home in p.hub.members
         && q.hub.rooms == p.hub.rooms && q.subs == p.subs
         && q.hub.members == p.hub.members[home := p.hub.members[home] + {c}]
         && q.conns == p.conns[c := Conn(room, Serving, Idle, [], [])]
       else
         && home == r
         && q.hub.rooms == p.hub.rooms[room := r]
         && q.subs == p.subs[r := Sub(room, c, false, false, [], None)]
         && q.hub.members == p.hub.members[r := {c}]
         && q.conns == p.conns[c := Conn(room, Subscribing(r), NotStarted, [], [])]
  }

  lemma RegisterEffect(p: Pod, c: nat, room: Bytes, r: nat) returns (home: nat)
    requires PodShape(p) && CanRegister(p, c, room, r)
    ensures Entered(p, DoRegister(p, c, room, r), c, room, r, home)
  {
    home := if room in p.hub.rooms then p.hub.rooms[room] else r;
  }

  lemma EnteredKeepsRooms(p: Pod, q: Pod, c: nat, room: Bytes, r: nat, home: nat)
    requires PodShape(p) && PodShape(q) && RoomsInv(p) && Entered(p, q, c, room, r, home)
    ensures RoomsInv(q)
  {
  }

  lemma EnteredMembersAreActive(p: Pod, q: Pod, c: nat, room: Bytes, r: nat, home: nat)
    requires PodShape(p) && PodShape(q) && RoomsInv(p) && MembersAreActive(p) && Entered(p, q, c, room, r, home)
    ensures MembersAreActive(q)
  {
    forall r', c' | r' in q.subs && c' in q.hub.members[r']
      ensures c' in q.conns && Active(q.conns[c'].phase) && q.conns[c'].room == q.subs[r'].room
    {
      assert c' != c ==> r' in p.subs && c' in p.hub.members[r'];
    }
  }

  lemma EnteredActivesAreMembers(p: Pod, q: Pod, c: nat, room: Bytes, r: nat, home: nat)
    requires PodShape(p) && PodShape(q) && ActivesAreMembers(p) && Entered(p, q, c, room, r, home)
    ensures ActivesAreMembers(q)
  {
    forall c' | c' in q.conns && Active(q.conns[c'].phase)
      ensures q.conns[c'].room in q.hub.rooms && c' in q.hub.members[q.hub.rooms[q.conns[c'].room]]
    {
      assert c' != c ==> c' in p.hub.members[p.hub.rooms[p.conns[c'].room]];
    }
  }

  lemma EnteredKeepsOpening(p: Pod, q: Pod, c: nat, room: Bytes, r: nat, home: nat)
    requires PodShape(p) && PodShape(q) && OpeningInv(p) && Entered(p, q, c, room, r, home)
    ensures OpeningInv(q)
  {
    forall c' | c' in q.conns && q.conns[c'].phase.Subscribing?
      ensures var r' := q.conns[c'].phase.r;
              r' in q.subs && !q.subs[r'].started && q.subs[r'].opener == c' && c' in q.hub.members[r']
    {
      assert c' != c ==> q.conns[c'] == p.conns[c'];
    }
  }

  lemma EnteredKeepsChannels(p: Pod, q: Pod, c: nat, room: Bytes, r: nat, home: nat)
    requires PodShape(p) && PodShape(q) && ChannelsInv(p) && Entered(p, q, c, room, r, home)
    ensures ChannelsInv(q)
  {
  }

  lemma RegisterKeepsHub(p: Pod, c: nat, room: Bytes, r: nat)
    requires PodShape(p) && HubInv(p) && CanRegister(p, c, room, r)
    ensures HubInv(DoRegister(p, c, room, r))
  {
    var q := DoRegister(p, c, room, r);
    var home := RegisterEffect(p, c, room, r);
    EnteredKeepsRooms(p, q, c, room, r, home);
    EnteredMembersAreActive(p, q, c, room, r, home);
    EnteredActivesAreMembers(p, q, c, room, r, home);
    EnteredKeepsOpening(p, q, c, room, r, home);
    EnteredKeepsChannels(p, q, c, room, r, home);
  }

  /** What rooms and their members depend on. */
  ghost predicate SameRoomsView(p: Pod, q: Pod)
    requires PodShape(p) && PodShape(q)
  {
    && q.hub.rooms == p.hub.rooms && q.hub.members == p.hub.members && q.hub.cancelled == p.hub.cancelled
    && q.conns.Keys == p.conns.Keys && q.subs.Keys == p.subs.Keys
    && (forall c :: c in p.conns ==> q.conns[c].room == p.conns[c].room)
    && (forall c :: c in p.conns ==> (Active(q.conns[c].phase) <==> Active(p.conns[c].phase)))
    && (forall r :: r in p.subs ==> q.subs[r].room == p.subs[r].room)
  }

  lemma SameViewKeepsRooms(p: Pod, q: Pod)
    requires PodShape(p) && PodShape(q) && RoomsInv(p) && MembersInv(p) && SameRoomsView(p, q)
    ensures RoomsInv(q) && MembersInv(q)
  {
  }

  lemma SubscribeSameView(p: Pod, c: nat)
    requires PodShape(p) && CanSubscribe(p, c)
    ensures SameRoomsView(p, DoSubscribe(p, c))
  {
  }

  lemma SubscribeKeepsHub(p: Pod, c: nat)
    requires PodShape(p) && HubInv(p) && CanSubscribe(p, c)
    ensures HubInv(DoSubscribe(p, c))
  {
    SubscribeSameView(p, c);
    SameViewKeepsRooms(p, DoSubscribe(p, c));
    SubscribeKeepsOpening(p, c);
  }

  lemma SubscribeKeepsOpening(p: Pod, c: nat)
    requires PodShape(p) && OpeningInv(p) && ChannelsInv(p) && CanSubscribe(p, c)
    ensures OpeningInv(DoSubscribe(p, c)) && ChannelsInv(DoSubscribe(p, c))
  {
  }

  /** A client is in at most one room object. */
  ghost predicate OneHome(p: Pod) {
    forall r, r', c :: r in p.hub.members && r' in p.hub.members ==>
      c in p.hub.members[r] && c in p.hub.members[r'] ==> r == r'
  }

  lemma HubInvOneHome(p: Pod)
    requires PodShape(p) && RoomsInv(p) && MembersInv(p)
    ensures OneHome(p)
  {
    forall r, r', c | r in p.subs && r' in p.subs && c in p.hub.members[r] && c in p.hub.members[r']
      ensures r == r'
    {
      assert p.subs[r].room == p.conns[c].room == p.subs[r'].room;
      assert r !in p.hub.cancelled && r' !in p.hub.cancelled;
    }
  }

  /** Client c has left the room object r it was in; the last one takes the name with it. */
  ghost predicate Departed(p: Pod, q: Pod, c: nat, r: nat)
    requires PodShape(p)
  {
    && c in p.conns && p.conns[c].phase.Serving?
    && r in p.subs && r !in p.hub.cancelled && c in p.hub.members[r]
    && p.subs[r].room == p.conns[c].room && p.conns[c].room in p.hub.rooms && p.hub.rooms[p.conns[c].room] == r
    && q.subs == p.subs && q.hub.sends == p.hub.sends && q.panicked == p.panicked
    && q.conns == p.conns[c := p.conns[c].(phase := Left)]
    && q.hub.members == p.hub.members[r := p.hub.members[r] - {c}]
    && if p.hub.members[r] == {c} then
         q.hub.rooms == p.hub.rooms - {p.conns[c].room} && q.hub.cancelled == p.hub.cancelled + {r}
       else
         q.hub.rooms == p.hub.rooms && q.hub.cancelled == p.hub.cancelled
  }

  /** In a hub satisfying the invariant, leave always finds the room object the client is in. */
  lemma LeaveEffect(p: Pod, c: nat) returns (r: nat)
    requires PodShape(p) && RoomsInv(p) && MembersInv(p) && CanLeave(p, c)
    ensures Departed(p, DoLeave(p, c), c, r)
  {
    r := p.hub.rooms[p.conns[c].room];
    assert c in p.hub.members[r];
    assert p.hub.members[r] == {c} <==> p.hub.members[r] - {c} == {};
  }

  lemma DepartedKeepsRooms(p: Pod, q: Pod, c: nat, r: nat)
    requires PodShape(p) && PodShape(q) && RoomsInv(p) && Departed(p, q, c, r)
    ensures RoomsInv(q)
  {
    assert p.hub.members[r] != {c} ==> p.hub.members[r] - {c} != {};
  }

  lemma DepartedMembersAreActive(p: Pod, q: Pod, c: nat, r: nat)
    requires PodShape(p) && PodShape(q) && OneHome(p) && MembersAreActive(p) && Departed(p, q, c, r)
    ensures MembersAreActive(q)
  {
    forall r', c' | r' in q.subs && c' in q.hub.members[r']
      ensures c' in q.conns && Active(q.conns[c'].phase) && q.conns[c'].room == q.subs[r'].room
    {
      assert c' in p.hub.members[r'];
    }
  }

  lemma DepartedActivesAreMembers(p: Pod, q: Pod, c: nat, r: nat)
    requires PodShape(p) && PodShape(q) && RoomsInv(p) && ActivesAreMembers(p) && Departed(p, q, c, r)
    ensures ActivesAreMembers(q)
  {
    forall c' | c' in q.conns && Active(q.conns[c'].phase)
      ensures q.conns[c'].room in q.hub.rooms && c' in q.hub.members[q.hub.rooms[q.conns[c'].room]]
    {
      assert c' in p.hub.members[p.hub.rooms[p.conns[c'].room]];
    }
  }

  lemma DepartedKeepsOpening(p: Pod, q: Pod, c: nat, r: nat)
    requires PodShape(p) && PodShape(q) && OpeningInv(p) && ChannelsInv(p) && Departed(p, q, c, r)
    ensures OpeningInv(q) && ChannelsInv(q)
  {
  }

  lemma LeaveKeepsHub(p: Pod, c: nat)
    requires PodShape(p) && HubInv(p) && CanLeave(p, c)
    ensures HubInv(DoLeave(p, c))
  {
    var q := DoLeave(p, c);
    var r := LeaveEffect(p, c);
    DepartedKeepsRooms(p, q, c, r);
    HubInvOneHome(p);
    DepartedMembersAreActive(p, q, c, r);
    DepartedActivesAreMembers(p, q, c, r);
    DepartedKeepsOpening(p, q, c, r);
  }

  /** Apart from the channels, the hub part of the invariant looks at a pod only through these components. */
  ghost predicate SameHubView(p: Pod, q: Pod)
    requires PodShape(p) && PodShape(q)
  {
    && SameRoomsView(p, q)
    && (forall c :: c in p.conns ==>
          q.conns[c].phase == p.conns[c].phase || (!Active(p.conns[c].phase) && !Active(q.conns[c].phase)))
    && (forall r :: r in p.subs ==>
          var u, v := p.subs[r], q.subs[r];
          v.opener == u.opener && v.started == u.started && (!u.started ==> v == u))
  }

  lemma SameViewKeepsOpening(p: Pod, q: Pod)
    requires PodShape(p) && PodShape(q) && OpeningInv(p) && SameHubView(p, q)
    ensures OpeningInv(q)
  {
  }

  lemma SameViewKeepsHub(p: Pod, q: Pod)
    requires PodShape(p) && PodShape(q) && HubInv(p) && SameHubView(p, q) && ChannelsInv(q)
    ensures HubInv(q)
  {
    SameViewKeepsRooms(p, q);
    SameViewKeepsOpening(p, q);
  }

  lemma BroadcastSameView(p: Pod, r: nat)
    requires PodShape(p) && CanBroadcast(p, r)
    requires forall r' :: r' in p.subs && !p.subs[r'].started ==> p.subs[r'].hand.None?
    ensures SameHubView(p, DoBroadcast(p, r))
  {
  }

  /** Members are active, so their channels are open: the broadcast cannot panic. */
  lemma BroadcastKeepsChannels(p: Pod, r: nat)
    requires PodShape(p) && MembersInv(p) && ChannelsInv(p) && CanBroadcast(p, r)
    ensures ChannelsInv(DoBroadcast(p, r))
  {
  }

  lemma QueueStepSameView(p: Pod, a: PodStep)
    requires PodShape(p) && ChannelsInv(p) && PodEnabled(p, a) && (a.SubReceive? || a.SubDrop? || a.SubEnd?)
    requires forall r :: r in p.subs && !p.subs[r].started ==> p.subs[r].queue == []
    ensures SameHubView(p, PodApply(p, a)) && ChannelsInv(PodApply(p, a))
  {
  }

  /** Only the connection c and its channel have changed, and c neither moved nor accepted anything. */
  ghost predicate OnlyConn(p: Pod, q: Pod, c: nat)
    requires PodShape(p) && PodShape(q)
  {
    && c in p.conns && c in q.conns
    && q.conns == p.conns[c := q.conns[c]] && q.subs == p.subs
    && q.hub == p.hub.(sends := p.hub.sends[c := q.hub.sends[c]])
    && q.conns[c].room == p.conns[c].room && q.conns[c].accepted == p.conns[c].accepted
  }

  predicate IsWriterStep(a: PodStep) {
    a.WriterTake? || a.WriterWrite? || a.WriterFail? || a.WriterExit?
  }

  lemma WriterStepEffect(p: Pod, a: PodStep)
    requires PodShape(p) && PodEnabled(p, a) && IsWriterStep(a)
    ensures OnlyConn(p, PodApply(p, a), a.c)
    ensures PodApply(p, a).conns[a.c].phase == p.conns[a.c].phase
    ensures PodApply(p, a).hub.sends[a.c].closed == p.hub.sends[a.c].closed && PodApply(p, a).panicked == p.panicked
  {
  }

  lemma EndStepEffect(p: Pod, a: PodStep)
    requires PodShape(p) && PodEnabled(p, a) && (a.CloseChannel? || a.Finish?)
    ensures OnlyConn(p, PodApply(p, a), a.c)
    ensures !Active(p.conns[a.c].phase) && !Active(PodApply(p, a).conns[a.c].phase)
  {
  }

  lemma OnlyConnSameView(p: Pod, q: Pod, c: nat)
    requires PodShape(p) && PodShape(q) && OnlyConn(p, q, c)
    requires q.conns[c].phase == p.conns[c].phase || (!Active(p.conns[c].phase) && !Active(q.conns[c].phase))
    ensures SameHubView(p, q)
  {
  }

  lemma WriterStepSameView(p: Pod, a: PodStep)
    requires PodShape(p) && PodEnabled(p, a) && IsWriterStep(a)
    ensures SameHubView(p, PodApply(p, a))
  {
    WriterStepEffect(p, a);
    OnlyConnSameView(p, PodApply(p, a), a.c);
  }

  lemma WriterStepKeepsChannels(p: Pod, a: PodStep)
    requires PodShape(p) && ChannelsInv(p) && PodEnabled(p, a) && IsWriterStep(a)
    ensures ChannelsInv(PodApply(p, a))
  {
    WriterStepEffect(p, a);
  }

  lemma EndStepSameView(p: Pod, a: PodStep)
    requires PodShape(p) && PodEnabled(p, a) && (a.CloseChannel? || a.Finish?)
    ensures SameHubView(p, PodApply(p, a))
  {
    EndStepEffect(p, a);
    OnlyConnSameView(p, PodApply(p, a), a.c);
  }

  lemma EndStepKeepsChannels(p: Pod, a: PodStep)
    requires PodShape(p) && ChannelsInv(p) && PodEnabled(p, a) && (a.CloseChannel? || a.Finish?)
    ensures ChannelsInv(PodApply(p, a))
  {
  }

  lemma StepKeepsHub(p: Pod, a: PodStep)
    requires PodShape(p) && HubInv(p) && PodEnabled(p, a)
    ensures HubInv(PodApply(p, a))
  {
    if a.JoinRegister? {
      RegisterKeepsHub(p, a.c, a.room, a.r);
    } else if a.JoinSubscribe? {
      SubscribeKeepsHub(p, a.c);
    } else if a.LeaveRoom? {
      LeaveKeepsHub(p, a.c);
    } else {
      if a.SubBroadcast? {
        BroadcastSameView(p, a.r);
        BroadcastKeepsChannels(p, a.r);
      } else if a.CloseChannel? || a.Finish? {
        EndStepSameView(p, a);
        EndStepKeepsChannels(p, a);
      } else if a.SubReceive? || a.SubDrop? || a.SubEnd? {
        QueueStepSameView(p, a);
      } else {
        WriterStepSameView(p, a);
        WriterStepKeepsChannels(p, a);
      }
      SameViewKeepsHub(p, PodApply(p, a));
    }
  }

  // ----- the pipeline part -----

  lemma OfferKeepsPipeline(conn: Conn, ch: Chan<Entry>, e: Entry)
    requires Pipeline(conn, ch) && HasSpace(ch) && !ch.closed
    ensures Pipeline(conn.(accepted := conn.accepted + [e]), Offer(ch, e))
  {
    if conn.writer != Exited(true) {
      assert conn.accepted + [e] == conn.written + InFlight(conn.writer) + (ch.buffer + [e]);
    }
  }

  lemma BroadcastEffect(p: Pod, r: nat, c: nat)
    requires PodShape(p) && CanBroadcast(p, r) && c in DoBroadcast(p, r).conns
    ensures c in p.conns
    ensures var q, e := DoBroadcast(p, r), p.subs[r].hand.value;
            if Accepts(p.hub, r, c) then
              q.conns[c] == p.conns[c].(accepted := p.conns[c].accepted + [e])
              && q.hub.sends[c] == Offer(p.hub.sends[c], e)
            else q.conns[c] == p.conns[c] && q.hub.sends[c] == p.hub.sends[c]
  {
  }

  lemma BroadcastKeepsPipelines(p: Pod, r: nat)
    requires PodShape(p) && MembersInv(p) && ChannelsInv(p) && PipelinesInv(p) && CanBroadcast(p, r)
    ensures PipelinesInv(DoBroadcast(p, r))
  {
    var q := DoBroadcast(p, r);
    forall c | c in q.conns ensures Pipeline(q.conns[c], q.hub.sends[c]) {
      BroadcastEffect(p, r, c);
      if Accepts(p.hub, r, c) {
        OfferKeepsPipeline(p.conns[c], p.hub.sends[c], p.subs[r].hand.value);
      }
    }
  }

  lemma OwnWriterStepKeepsPipeline(p: Pod, a: PodStep)
    requires PodShape(p) && PodEnabled(p, a) && IsWriterStep(a)
    requires Pipeline(p.conns[a.c], p.hub.sends[a.c])
    ensures a.c in PodApply(p, a).conns && Pipeline(PodApply(p, a).conns[a.c], PodApply(p, a).hub.sends[a.c])
  {
  }

  lemma WriterStepKeepsPipelines(p: Pod, a: PodStep)
    requires PodShape(p) && PipelinesInv(p) && PodEnabled(p, a) && IsWriterStep(a)
    ensures PipelinesInv(PodApply(p, a))
  {
    WriterStepEffect(p, a);
    OwnWriterStepKeepsPipeline(p, a);
  }

  lemma PhaseStepKeepsPipelines(p: Pod, a: PodStep)
    requires PodShape(p) && PipelinesInv(p) && PodEnabled(p, a) && (a.JoinSubscribe? || a.LeaveRoom?)
    ensures PipelinesInv(PodApply(p, a))
  {
    var q := PodApply(p, a);
    forall c | c in q.conns ensures Pipeline(q.conns[c], q.hub.sends[c]) {
      assert Pipeline(p.conns[c], p.hub.sends[c]);
    }
  }

  lemma EndStepKeepsPipelines(p: Pod, a: PodStep)
    requires PodShape(p) && PipelinesInv(p) && PodEnabled(p, a) && (a.CloseChannel? || a.Finish?)
    ensures PipelinesInv(PodApply(p, a))
  {
    EndStepEffect(p, a);
    assert Pipeline(p.conns[a.c], p.hub.sends[a.c]);
  }

  lemma RegisterKeepsPipelines(p: Pod, c: nat, room: Bytes, r: nat)
    requires PodShape(p) && PipelinesInv(p) && CanRegister(p, c, room, r)
    ensures PipelinesInv(DoRegister(p, c, room, r))
  {
    var q := DoRegister(p, c, room, r);
    forall c' | c' in q.conns ensures Pipeline(q.conns[c'], q.hub.sends[c']) {
      if c' != c {
        assert Pipeline(p.conns[c'], p.hub.sends[c']);
      }
    }
  }

  lemma StepKeepsPipelines(p: Pod, a: PodStep)
    requires PodShape(p) && MembersInv(p) && ChannelsInv(p) && PipelinesInv(p) && PodEnabled(p, a)
    ensures PipelinesInv(PodApply(p, a))
  {
    match a
    case JoinRegister(c, room, r) => RegisterKeepsPipelines(p, c, room, r);
    case SubBroadcast(r) => BroadcastKeepsPipelines(p, r);
    case WriterTake(c) => WriterStepKeepsPipelines(p, a);
    case WriterWrite(c) => WriterStepKeepsPipelines(p, a);
    case WriterFail(c) => WriterStepKeepsPipelines(p, a);
    case WriterExit(c) => WriterStepKeepsPipelines(p, a);
    case JoinSubscribe(c) => PhaseStepKeepsPipelines(p, a);
    case LeaveRoom(c) => PhaseStepKeepsPipelines(p, a);
    case CloseChannel(c) => EndStepKeepsPipelines(p, a);
    case Finish(c) => EndStepKeepsPipelines(p, a);
    case SubReceive(r) =>
    case SubDrop(r, i) =>
    case SubEnd(r) =>
  }

  // ----- the delivery part -----

  /** The delivery part looks at a pod only through these components; rooms may lose members. */
  ghost predicate SameDeliveryView(p: Pod, q: Pod)
    requires PodShape(p) && PodShape(q)
  {
    && q.subs.Keys == p.subs.Keys && q.conns.Keys == p.conns.Keys
    && (forall r :: r in p.subs ==> q.subs[r].room == p.subs[r].room && Pending(q.subs[r]) == Pending(p.subs[r]))
    && (forall r :: r in p.subs ==> q.hub.members[r] <= p.hub.members[r])
    && (forall c :: c in p.conns ==>
          q.conns[c].room == p.conns[c].room && q.conns[c].accepted == p.conns[c].accepted)
  }

  lemma SameViewKeepsDelivery(p: Pod, q: Pod, n: ShardCount, logs: map<LogKey, seq<Message>>)
    requires PodShape(p) && PodShape(q) && SameDeliveryView(p, q) && DeliveryInv(p, n, logs)
    ensures DeliveryInv(q, n, logs)
  {
    forall r, c | r in q.subs && c in q.hub.members[r] && c in q.conns
      ensures Ascending(q.conns[c].accepted + Pending(q.subs[r]))
    {
      assert c in p.hub.members[r];
    }
  }

  /** q has p's clients and subscriptions and new ones, which have nothing accepted and nothing pending. */
  ghost predicate Extends(p: Pod, q: Pod) {
    && (forall r :: r in q.subs && r in p.subs ==> q.subs[r] == p.subs[r])
    && (forall r :: r in q.subs && r !in p.subs ==> Pending(q.subs[r]) == [])
    && (forall c :: c in q.conns && c in p.conns ==> q.conns[c] == p.conns[c])
    && (forall c :: c in q.conns && c !in p.conns ==> q.conns[c].accepted == [])
  }

  /** No client of p has entered a room object. */
  ghost predicate NoMoves(p: Pod, q: Pod)
    requires PodShape(p) && PodShape(q)
  {
    forall r, c :: r in q.subs && c in q.hub.members[r] && c in p.conns ==> r in p.subs && c in p.hub.members[r]
  }

  lemma EnteredExtends(p: Pod, q: Pod, c: nat, room: Bytes, r: nat, home: nat)
    requires PodShape(p) && PodShape(q) && Entered(p, q, c, room, r, home)
    ensures Extends(p, q)
  {
  }

  lemma EnteredNoMoves(p: Pod, q: Pod, c: nat, room: Bytes, r: nat, home: nat)
    requires PodShape(p) && PodShape(q) && Entered(p, q, c, room, r, home)
    ensures NoMoves(p, q)
  {
  }

  lemma RegisterKeepsDelivery(p: Pod, c: nat, room: Bytes, r: nat, n: ShardCount, logs: map<LogKey, seq<Message>>)
    requires PodShape(p) && CanRegister(p, c, room, r) && DeliveryInv(p, n, logs)
    ensures DeliveryInv(DoRegister(p, c, room, r), n, logs)
  {
    var q := DoRegister(p, c, room, r);
    var home := RegisterEffect(p, c, room, r);
    EnteredExtends(p, q, c, room, r, home);
    EnteredNoMoves(p, q, c, room, r, home);
    NewcomersKeepSource(p, q, n, logs);
    NewcomersKeepMemberOrder(p, q);
  }

  lemma NewcomersKeepSource(p: Pod, q: Pod, n: ShardCount, logs: map<LogKey, seq<Message>>)
    requires SourceInv(p, n, logs) && Extends(p, q)
    ensures SourceInv(q, n, logs)
  {
    forall r | r in q.subs
      ensures FromLog(Pending(q.subs[r]), Log(logs, Route(q.subs[r].room, n))) && Ascending(Pending(q.subs[r]))
    {
      assert r in p.subs ==> FromLog(Pending(p.subs[r]), Log(logs, Route(p.subs[r].room, n)));
    }
    forall c | c in q.conns
      ensures FromLog(q.conns[c].accepted, Log(logs, Route(q.conns[c].room, n))) && Ascending(q.conns[c].accepted)
    {
      assert c in p.conns ==> FromLog(p.conns[c].accepted, Log(logs, Route(p.conns[c].room, n)));
    }
  }

  lemma NewMemberOrder(accepted: seq<Entry>, pending: seq<Entry>)
    requires accepted == [] && Ascending(pending)
    ensures Ascending(accepted + pending)
  {
    assert accepted + pending == pending;
  }

  lemma OldMemberOrder(p: Pod, q: Pod, r: nat, c: nat)
    requires PodShape(p) && PodShape(q) && MemberOrderInv(p) && Extends(p, q) && NoMoves(p, q)
    requires r in q.subs && c in q.hub.members[r] && c in q.conns && c in p.conns
    ensures Ascending(q.conns[c].accepted + Pending(q.subs[r]))
  {
    assert r in p.subs && q.subs[r] == p.subs[r] && q.conns[c] == p.conns[c];
  }

  lemma NewcomersKeepMemberOrder(p: Pod, q: Pod)
    requires PodShape(p) && PodShape(q) && MemberOrderInv(p)
    requires forall r :: r in q.subs ==> Ascending(Pending(q.subs[r]))
    requires Extends(p, q) && NoMoves(p, q)
    ensures MemberOrderInv(q)
  {
    forall r, c | r in q.subs && c in q.hub.members[r] && c in q.conns
      ensures Ascending(q.conns[c].accepted + Pending(q.subs[r]))
    {
      if c in p.conns {
        OldMemberOrder(p, q, r, c);
      } else {
        NewMemberOrder(q.conns[c].accepted, Pending(q.subs[r]));
      }
    }
  }

  /** Removing one position keeps a sequence ascending and within its log. */
  lemma CutKeepsOrder(s: seq<Entry>, i: nat, log: seq<Message>)
    requires i < |s| && Ascending(s)
    ensures Ascending(s[..i] + s[i + 1..])
    ensures FromLog(s, log) ==> FromLog(s[..i] + s[i + 1..], log)
  {
    var t := s[..i] + s[i + 1..];
    forall j | 0 <= j < |t| ensures t[j] == s[if j < i then j else j + 1] {
    }
  }

  /** One subscription changes what it has pending; everything else is as before. */
  lemma PendingChangeKeepsDelivery(p: Pod, q: Pod, r: nat, n: ShardCount, logs: map<LogKey, seq<Message>>)
    requires PodShape(p) && PodShape(q) && DeliveryInv(p, n, logs) && r in p.subs && r in q.subs
    requires q.conns == p.conns && q.hub == p.hub && q.subs == p.subs[r := q.subs[r]]
    requires q.subs[r].room == p.subs[r].room
    requires FromLog(Pending(q.subs[r]), Log(logs, Route(p.subs[r].room, n)))
    requires Ascending(Pending(q.subs[r]))
    requires forall c :: c in p.hub.members[r] && c in p.conns ==>
               Ascending(p.conns[c].accepted + Pending(q.subs[r]))
    ensures DeliveryInv(q, n, logs)
  {
  }

  /** CutKeepsOrder for an entry in the middle of three parts. */
  lemma CutMiddle(a: seq<Entry>, b: seq<Entry>, s: seq<Entry>, i: nat)
    requires i < |s| && Ascending(a + (b + s))
    ensures Ascending(a + (b + (s[..i] + s[i + 1..])))
  {
    var all := a + (b + s);
    var m := |a| + |b| + i;
    assert a + (b + (s[..i] + s[i + 1..])) == all[..m] + all[m + 1..];
    CutKeepsOrder(all, m, []);
  }

  lemma DropKeepsDelivery(p: Pod, r: nat, i: nat, n: ShardCount, logs: map<LogKey, seq<Message>>)
    requires PodShape(p) && CanDrop(p, r, i) && DeliveryInv(p, n, logs)
    ensures DeliveryInv(DoDrop(p, r, i), n, logs)
  {
    var q := DoDrop(p, r, i);
    var sub := p.subs[r];
    var hand := if sub.hand.Some? then [sub.hand.value] else [];
    assert Pending(q.subs[r]) == hand + (sub.queue[..i] + sub.queue[i + 1..]);
    DropKeepsSource(hand, sub.queue, i, Log(logs, Route(sub.room, n)));
    forall c | c in p.hub.members[r] && c in p.conns
      ensures Ascending(p.conns[c].accepted + Pending(q.subs[r]))
    {
      CutMiddle(p.conns[c].accepted, hand, sub.queue, i);
    }
    PendingChangeKeepsDelivery(p, q, r, n, logs);
  }

  lemma DropKeepsSource(b: seq<Entry>, s: seq<Entry>, i: nat, log: seq<Message>)
    requires i < |s| && Ascending(b + s) && FromLog(b + s, log)
    ensures Ascending(b + (s[..i] + s[i + 1..])) && FromLog(b + (s[..i] + s[i + 1..]), log)
  {
    var m := |b| + i;
    assert b + (s[..i] + s[i + 1..]) == (b + s)[..m] + (b + s)[m + 1..];
    CutKeepsOrder(b + s, m, log);
  }

  lemma EndKeepsDelivery(p: Pod, r: nat, n: ShardCount, logs: map<LogKey, seq<Message>>)
    requires PodShape(p) && CanEnd(p, r) && DeliveryInv(p, n, logs)
    ensures DeliveryInv(DoEnd(p, r), n, logs)
  {
    var q := DoEnd(p, r);
    assert Pending(q.subs[r]) == [];
    forall c | c in p.conns ensures p.conns[c].accepted + [] == p.conns[c].accepted {
    }
    PendingChangeKeepsDelivery(p, q, r, n, logs);
  }

  /** What a client has accepted, with the entry being broadcast: still ascending and from its own log. */
  lemma AcceptKeepsOrder(p: Pod, r: nat, c: nat, n: ShardCount, logs: map<LogKey, seq<Message>>)
    requires PodShape(p) && CanBroadcast(p, r) && DeliveryInv(p, n, logs)
    requires c in p.hub.members[r] && c in p.conns && p.conns[c].room == p.subs[r].room
    ensures var acc := p.conns[c].accepted + [p.subs[r].hand.value];
            Ascending(acc) && FromLog(acc, Log(logs, Route(p.conns[c].room, n)))
  {
    var all := p.conns[c].accepted + Pending(p.subs[r]);
    var acc := p.conns[c].accepted + [p.subs[r].hand.value];
    assert Ascending(all) && acc == all[..|acc|];
    assert Pending(p.subs[r])[0] == p.subs[r].hand.value;
  }

  lemma BroadcastKeepsSource(p: Pod, r: nat, n: ShardCount, logs: map<LogKey, seq<Message>>)
    requires PodShape(p) && CanBroadcast(p, r) && DeliveryInv(p, n, logs)
    requires forall c :: c in p.hub.members[r] && c in p.conns ==> p.conns[c].room == p.subs[r].room
    ensures SourceInv(DoBroadcast(p, r), n, logs)
  {
    var q := DoBroadcast(p, r);
    var all := Pending(p.subs[r]);
    assert Pending(q.subs[r]) == all[..0] + all[1..];
    CutKeepsOrder(all, 0, Log(logs, Route(p.subs[r].room, n)));
    forall c | c in q.conns
      ensures FromLog(q.conns[c].accepted, Log(logs, Route(q.conns[c].room, n))) && Ascending(q.conns[c].accepted)
    {
      if Accepts(p.hub, r, c) {
        AcceptKeepsOrder(p, r, c, n, logs);
      }
    }
  }

  /** The entry moves from the front of the pending ones to the end of the accepted ones, or is dropped. */
  lemma BroadcastKeepsDelivery(p: Pod, r: nat, n: ShardCount, logs: map<LogKey, seq<Message>>)
    requires PodShape(p) && CanBroadcast(p, r) && DeliveryInv(p, n, logs) && OneHome(p)
    requires forall c :: c in p.hub.members[r] && c in p.conns ==> p.conns[c].room == p.subs[r].room
    ensures DeliveryInv(DoBroadcast(p, r), n, logs)
  {
    BroadcastKeepsSource(p, r, n, logs);
    var q := DoBroadcast(p, r);
    forall r', c | r' in q.subs && c in q.hub.members[r'] && c in q.conns
      ensures Ascending(q.conns[c].accepted + Pending(q.subs[r']))
    {
      if r' == r {
        BroadcastKeepsMemberOrder(p, r, c, n, logs);
      }
    }
  }

  lemma BroadcastKeepsMemberOrder(p: Pod, r: nat, c: nat, n: ShardCount, logs: map<LogKey, seq<Message>>)
    requires PodShape(p) && CanBroadcast(p, r) && DeliveryInv(p, n, logs)
    requires c in p.hub.members[r] && c in p.conns
    ensures var q := DoBroadcast(p, r); Ascending(q.conns[c].accepted + Pending(q.subs[r]))
  {
    var sub := p.subs[r];
    var acc := p.conns[c].accepted;
    var q := DoBroadcast(p, r);
    assert Pending(q.subs[r]) == sub.queue;
    MoveOrDrop(acc, sub.hand.value, sub.queue);
  }

  lemma MoveOrDrop(a: seq<Entry>, e: Entry, s: seq<Entry>)
    requires Ascending(a + ([e] + s))
    ensures Ascending((a + [e]) + s) && Ascending(a + s)
  {
    var all := a + ([e] + s);
    assert (a + [e]) + s == all;
    assert a + s == all[..|a|] + all[|a| + 1..];
    CutKeepsOrder(all, |a|, []);
  }

  lemma ReceiveSameView(p: Pod, r: nat)
    requires PodShape(p) && CanReceiveNext(p, r)
    ensures SameDeliveryView(p, DoReceive(p, r))
  {
    assert Pending(DoReceive(p, r).subs[r]) == Pending(p.subs[r]);
  }

  lemma LeaveSameView(p: Pod, c: nat)
    requires PodShape(p) && CanLeave(p, c)
    ensures SameDeliveryView(p, DoLeave(p, c))
  {
  }

  lemma PlainStepSameView(p: Pod, a: PodStep)
    requires PodShape(p) && PodEnabled(p, a)
    requires IsWriterStep(a) || a.CloseChannel? || a.Finish? || a.JoinSubscribe?
    ensures SameDeliveryView(p, PodApply(p, a))
  {
    if IsWriterStep(a) {
      WriterStepEffect(p, a);
    } else if !a.JoinSubscribe? {
      EndStepEffect(p, a);
    }
  }

  lemma StepKeepsDelivery(p: Pod, a: PodStep, n: ShardCount, logs: map<LogKey, seq<Message>>)
    requires PodShape(p) && RoomsInv(p) && MembersInv(p) && PodEnabled(p, a) && DeliveryInv(p, n, logs)
    ensures DeliveryInv(PodApply(p, a), n, logs)
  {
    if a.JoinRegister? {
      RegisterKeepsDelivery(p, a.c, a.room, a.r, n, logs);
    } else if a.SubDrop? {
      DropKeepsDelivery(p, a.r, a.i, n, logs);
    } else if a.SubEnd? {
      EndKeepsDelivery(p, a.r, n, logs);
    } else if a.SubBroadcast? {
      HubInvOneHome(p);
      BroadcastKeepsDelivery(p, a.r, n, logs);
    } else {
      if a.SubReceive? {
        ReceiveSameView(p, a.r);
      } else if a.LeaveRoom? {
        LeaveSameView(p, a.c);
      } else {
        PlainStepSameView(p, a);
      }
      SameViewKeepsDelivery(p, PodApply(p, a), n, logs);
    }
  }

  // ----- publishing -----

  lemma AppendKeepsOrder(s: seq<Entry>, e: Entry, log: seq<Message>)
    requires Ascending(s) && FromLog(s, log) && e.pos == |log|
    ensures Ascending(s + [e]) && FromLog(s + [e], log + [e.msg])
  {
  }

  lemma AppendBehind(acc: seq<Entry>, pending: seq<Entry>, e: Entry, log: seq<Message>)
    requires Ascending(acc + pending) && FromLog(acc, log) && FromLog(pending, log) && e.pos == |log|
    ensures Ascending(acc + (pending + [e]))
  {
    AppendKeepsOrder(acc + pending, e, log);
    assert acc + (pending + [e]) == (acc + pending) + [e];
  }

  lemma EnqueueKeepsHub(p: Pod, i: nat, receivers: set<(nat, nat)>, e: Entry)
    requires PodShape(p) && HubInv(p)
    requires forall r :: r in p.subs && (i, r) in receivers ==> p.subs[r].started
    ensures PodShape(Enqueue(p, i, receivers, e)) && HubInv(Enqueue(p, i, receivers, e))
  {
    SameViewKeepsHub(p, Enqueue(p, i, receivers, e));
  }

  /** The new entry is the last of its log, so it may be queued behind everything from that log. */
  lemma EnqueueKeepsSource(p: Pod, i: nat, receivers: set<(nat, nat)>, e: Entry, n: ShardCount,
                           logs: map<LogKey, seq<Message>>, key: LogKey)
    requires SourceInv(p, n, logs) && e.pos == |Log(logs, key)|
    requires forall r :: r in p.subs && (i, r) in receivers ==> Route(p.subs[r].room, n) == key
    ensures SourceInv(Enqueue(p, i, receivers, e), n, logs[key := Log(logs, key) + [e.msg]])
  {
    var q := Enqueue(p, i, receivers, e);
    var logs' := logs[key := Log(logs, key) + [e.msg]];
    forall r | r in q.subs
      ensures FromLog(Pending(q.subs[r]), Log(logs', Route(q.subs[r].room, n))) && Ascending(Pending(q.subs[r]))
    {
      if (i, r) in receivers {
        assert Pending(q.subs[r]) == Pending(p.subs[r]) + [e];
        AppendKeepsOrder(Pending(p.subs[r]), e, Log(logs, key));
      } else {
        assert FromLog(Pending(p.subs[r]), Log(logs, Route(p.subs[r].room, n)));
      }
    }
    forall c | c in q.conns
      ensures FromLog(q.conns[c].accepted, Log(logs', Route(q.conns[c].room, n)))
    {
      assert FromLog(p.conns[c].accepted, Log(logs, Route(p.conns[c].room, n)));
    }
  }

  lemma EnqueueBehindMember(p: Pod, r: nat, c: nat, e: Entry, n: ShardCount, logs: map<LogKey, seq<Message>>)
    requires PodShape(p) && MembersInv(p) && DeliveryInv(p, n, logs)
    requires r in p.subs && c in p.hub.members[r] && e.pos == |Log(logs, Route(p.subs[r].room, n))|
    ensures c in p.conns && Ascending(p.conns[c].accepted + (Pending(p.subs[r]) + [e]))
  {
    AppendBehind(p.conns[c].accepted, Pending(p.subs[r]), e, Log(logs, Route(p.subs[r].room, n)));
  }

  lemma EnqueuedPending(p: Pod, i: nat, receivers: set<(nat, nat)>, e: Entry, r: nat)
    requires r in p.subs
    ensures r in Enqueue(p, i, receivers, e).subs
    ensures Pending(Enqueue(p, i, receivers, e).subs[r])
         == if (i, r) in receivers then Pending(p.subs[r]) + [e] else Pending(p.subs[r])
  {
  }

  lemma EnqueueKeepsMemberOrder(p: Pod, i: nat, receivers: set<(nat, nat)>, e: Entry, n: ShardCount,
                                logs: map<LogKey, seq<Message>>, key: LogKey)
    requires PodShape(p) && MembersInv(p) && DeliveryInv(p, n, logs) && e.pos == |Log(logs, key)|
    requires forall r :: r in p.subs && (i, r) in receivers ==> Route(p.subs[r].room, n) == key
    ensures PodShape(Enqueue(p, i, receivers, e)) && MemberOrderInv(Enqueue(p, i, receivers, e))
  {
    var q := Enqueue(p, i, receivers, e);
    forall r, c | r in q.subs && c in q.hub.members[r] && c in q.conns
      ensures Ascending(q.conns[c].accepted + Pending(q.subs[r]))
    {
      EnqueuedPending(p, i, receivers, e, r);
      if (i, r) in receivers {
        EnqueueBehindMember(p, r, c, e, n, logs);
      }
    }
  }

  lemma EnqueueKeepsPod(p: Pod, i: nat, receivers: set<(nat, nat)>, e: Entry, n: ShardCount,
                        logs: map<LogKey, seq<Message>>, key: LogKey)
    requires PodInv(p, n, logs) && e.pos == |Log(logs, key)|
    requires forall r :: r in p.subs && (i, r) in receivers ==> p.subs[r].started && Route(p.subs[r].room, n) == key
    ensures PodInv(Enqueue(p, i, receivers, e), n, logs[key := Log(logs, key) + [e.msg]])
  {
    EnqueueKeepsHub(p, i, receivers, e);
    EnqueueKeepsSource(p, i, receivers, e, n, logs, key);
    EnqueueKeepsMemberOrder(p, i, receivers, e, n, logs, key);
  }

  // ----- every step -----

  lemma LocalKeepsPod(p: Pod, a: PodStep, n: ShardCount, logs: map<LogKey, seq<Message>>)
    requires PodInv(p, n, logs) && PodEnabled(p, a)
    ensures PodInv(PodApply(p, a), n, logs)
  {
    StepKeepsHub(p, a);
    StepKeepsPipelines(p, a);
    StepKeepsDelivery(p, a, n, logs);
  }

  lemma LocalKeepsInv(s: System, p: nat, a: PodStep)
    requires Inv(s) && Enabled(s, Local(p, a))
    ensures Inv(Apply(s, Local(p, a)))
  {
    var t := Apply(s, Local(p, a));
    forall i | i in t.pods ensures PodInv(t.pods[i], t.shards, t.logs) {
      if i == p {
        LocalKeepsPod(s.pods[p], a, s.shards, s.logs);
      }
    }
  }

  lemma StepKeepsInv(s: System, a: Step)
    requires Inv(s) && Enabled(s, a)
    ensures Inv(Apply(s, a))
  {
    match a
    case Local(p, step) =>
      LocalKeepsInv(s, p, step);
    case Publish(p, c, body, receivers) =>
      PublishKeepsInv(s, p, c, body, receivers);
  }

  lemma PublishKeepsInv(s: System, p: nat, c: nat, body: Bytes, receivers: set<(nat, nat)>)
    requires Inv(s) && Enabled(s, Publish(p, c, body, receivers))
    ensures Inv(Apply(s, Publish(p, c, body, receivers)))
  {
    var t := Apply(s, Publish(p, c, body, receivers));
    forall i | i in t.pods ensures PodInv(t.pods[i], t.shards, t.logs) {
      PublishKeepsPod(s, p, c, body, receivers, i);
    }
    PublishKeepsLogs(s, p, c, body, receivers);
  }

  lemma PublishKeepsPod(s: System, p: nat, c: nat, body: Bytes, receivers: set<(nat, nat)>, i: nat)
    requires Inv(s) && Enabled(s, Publish(p, c, body, receivers)) && i in s.pods
    ensures var t := Apply(s, Publish(p, c, body, receivers)); PodInv(t.pods[i], t.shards, t.logs)
  {
    var room := s.pods[p].conns[c].room;
    var key := Route(room, s.shards);
    var e := Entry(|Log(s.logs, key)|, Message(room, body));
    forall r | r in s.pods[i].subs && (i, r) in receivers
      ensures s.pods[i].subs[r].started && Route(s.pods[i].subs[r].room, s.shards) == key
    {
      assert CanReceive(s, key, (i, r));
    }
    EnqueueKeepsPod(s.pods[i], i, receivers, e, s.shards, s.logs, key);
  }

  lemma PublishKeepsLogs(s: System, p: nat, c: nat, body: Bytes, receivers: set<(nat, nat)>)
    requires Shape(s) && LogsInv(s) && Enabled(s, Publish(p, c, body, receivers))
    ensures LogsInv(Apply(s, Publish(p, c, body, receivers)))
  {
  }
}
