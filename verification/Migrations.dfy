/**
 upgrade_to_head of services/users/app/migrations.py, run by any number of pods against
 one Postgres. Every line that talks to the database is a step; between any two steps of
 a pod the other pods, the network and the server may act. The pods of a rollout may ship
 different numbers of revisions of one chain.
 */
module Migrations {
  import opened Common
  import opened Completions

  /**
   The line a pod is at. base is the revision Alembic read when it began; pending is how
   the try block completed, cleanup how the release block did.
   */
  datatype Line =
    | Waiting
    | Locked
    | Upgrading(base: nat)
    | Committing(base: nat)
    | RollingBack(pending: Completion)
    | Unlocking(pending: Completion)
    | Invalidating(pending: Completion, cleanup: Completion)
    | Finished(outcome: Completion)

  /**
   head: the last revision the pod ships. open: it has not lost or invalidated its
   connection. The rest is a history: how each call it made has completed, whether the
   server granted the lock to a query that raised, and carried out an unlock that raised.
   */
  datatype Pod = Pod(head: nat, line: Line, open: bool, calls: Calls, grantedUnseen: bool, unlockedUnseen: bool)

  /**
   The server side: who holds the advisory lock, the sessions that are alive, the
   revisions each open transaction has applied, and the committed ones in order.
   */
  datatype System = System(
    pods: map<nat, Pod>,
    holder: Option<nat>,
    live: set<nat>,
    staged: map<nat, seq<nat>>,
    applied: seq<nat>)

  /** took says of a call that raises whether the server carried it out all the same. */
  datatype Step =
    | TryLock(p: nat)
    | GiveUp(p: nat)
    | AcquireRaises(p: nat, error: Error, took: bool)
    | ReadVersion(p: nat)
    | ApplyRevision(p: nat)
    | UpgradeReturns(p: nat)
    | UpgradeRaises(p: nat, error: Error)
    | Commit(p: nat)
    | CommitRaises(p: nat, error: Error, took: bool)
    | Rollback(p: nat)
    | RollbackRaises(p: nat, error: Error, took: bool)
    | Unlock(p: nat)
    | UnlockRaises(p: nat, error: Error, took: bool)
    | Invalidate(p: nat)
    | InvalidateRaises(p: nat, error: Error)
    | Disconnect(p: nat)
    | ServerEndsSession(p: nat)

  function FreshPod(head: nat): Pod {
    Pod(head, Waiting, true, NO_FAILURE, false, false)
  }

  ghost predicate Init(s: System) {
    && (forall p :: p in s.pods ==> s.pods[p] == FreshPod(s.pods[p].head))
    && s.holder == None && s.live == s.pods.Keys && s.staged == map[] && s.applied == []
  }

  /** Statements of p reach the server. */
  predicate Usable(s: System, p: nat) {
    p in s.pods && s.pods[p].open && p in s.live
  }

  function Staged(s: System, p: nat): seq<nat> {
    if p in s.staged then s.staged[p] else []
  }

  /** The revision p sees inside its transaction. */
  function Reached(s: System, p: nat, base: nat): nat {
    base + |Staged(s, p)|
  }

  /** An older pod that finds a revision it does not ship cannot locate it: its upgrade can only raise. */
  predicate Enabled(s: System, a: Step) {
    a.p in s.pods &&
    var pod := s.pods[a.p];
    var line := pod.line;
    match a
    case TryLock(p) => line.Waiting? && Usable(s, p)
    case GiveUp(p) => line.Waiting?
    case AcquireRaises(p, _, took) => line.Waiting? && (took ==> Usable(s, p) && s.holder.None?)
    case ReadVersion(p) => line.Locked? && Usable(s, p)
    case ApplyRevision(p) => line.Upgrading? && Usable(s, p) && Reached(s, p, line.base) < pod.head
    case UpgradeReturns(p) => line.Upgrading? && Reached(s, p, line.base) == pod.head
    case UpgradeRaises(p, _) => line.Locked? || line.Upgrading?
    case Commit(p) => line.Committing? && Usable(s, p)
    case CommitRaises(p, _, took) => line.Committing? && (took ==> Usable(s, p))
    case Rollback(p) => line.RollingBack?
    case RollbackRaises(p, _, took) => line.RollingBack? && (took ==> Usable(s, p))
    case Unlock(p) => line.Unlocking?
    case UnlockRaises(p, _, took) => line.Unlocking? && (took ==> Usable(s, p))
    case Invalidate(p) => line.Invalidating?
    case InvalidateRaises(p, _) => line.Invalidating?
    case Disconnect(p) => true
    case ServerEndsSession(p) => true
  }

  function Goto(s: System, p: nat, line: Line): System
    requires p in s.pods
  {
    s.(pods := s.pods[p := s.pods[p].(line := line)])
  }

  /** A call of p has raised; calls is the history with it. */
  function Fails(s: System, p: nat, calls: Calls, line: Line): System
    requires p in s.pods
  {
    s.(pods := s.pods[p := s.pods[p].(line := line, calls := calls)])
  }

  /** The release block has raised: on to the handler, or out of the finally block. */
  function AfterRelease(pending: Completion, cleanup: Completion): Line {
    if Caught(cleanup) then Invalidating(pending, cleanup) else Finished(Finally(pending, cleanup))
  }

  /** The handler is done, and with it the finally block. */
  function AfterHandler(pending: Completion, cleanup: Completion, invalidate: Completion): Line {
    Finished(Finally(pending, ExceptException(cleanup, ExceptException(invalidate, Normal))))
  }

  /** The transaction of p ends; commit says how. */
  function EndTransaction(s: System, p: nat, commit: bool): System {
    s.(staged := s.staged - {p}, applied := if commit then s.applied + Staged(s, p) else s.applied)
  }

  function Release(s: System, p: nat): System {
    s.(holder := if s.holder == Some(p) then None else s.holder)
  }

  function Apply(s: System, a: Step): System
    requires Enabled(s, a)
  {
    var p := a.p;
    var pod := s.pods[p];
    match a
    case TryLock(_) =>
      if s.holder.None? then Goto(s, p, Locked).(holder := Some(p)) else s
    case GiveUp(_) =>
      Fails(s, p, pod.calls.(acquire := Raises(LockTimeout)), Finished(Raises(LockTimeout)))
    case AcquireRaises(_, error, took) =>
      // The call precedes the try block. Whether the connection survives is up to a later Disconnect.
      var s' := s.(holder := if took then Some(p) else s.holder, pods := s.pods[p := pod.(grantedUnseen := took)]);
      Fails(s', p, pod.calls.(acquire := Raises(error)), Finished(Raises(error)))
    case ReadVersion(_) => Goto(s, p, Upgrading(|s.applied|))
    case ApplyRevision(_) =>
      s.(staged := s.staged[p := Staged(s, p) + [Reached(s, p, pod.line.base) + 1]])
    case UpgradeReturns(_) => Goto(s, p, Committing(pod.line.base))
    case UpgradeRaises(_, error) =>
      Fails(s, p, pod.calls.(upgrade := Raises(error)), RollingBack(Raises(error)))
    case Commit(_) => Goto(EndTransaction(s, p, true), p, RollingBack(Normal))
    case CommitRaises(_, error, took) =>
      Fails(if took then EndTransaction(s, p, true) else s,
            p, pod.calls.(commit := Raises(error)), RollingBack(Raises(error)))
    case Rollback(_) =>
      Goto(if Usable(s, p) then EndTransaction(s, p, false) else s, p, Unlocking(pod.line.pending))
    case RollbackRaises(_, error, took) =>
      Fails(if took then EndTransaction(s, p, false) else s,
            p, pod.calls.(rollback := Raises(error)), AfterRelease(pod.line.pending, Raises(error)))
    case Unlock(_) =>
      Goto(if Usable(s, p) then Release(s, p) else s, p, Finished(Finally(pod.line.pending, Normal)))
    case UnlockRaises(_, error, took) =>
      var s' := (if took then Release(s, p) else s).(pods := s.pods[p := pod.(unlockedUnseen := took)]);
      Fails(s', p, pod.calls.(unlock := Raises(error)), AfterRelease(pod.line.pending, Raises(error)))
    case Invalidate(_) =>
      var line := AfterHandler(pod.line.pending, pod.line.cleanup, Normal);
      s.(pods := s.pods[p := pod.(line := line, open := false)])
    case InvalidateRaises(_, error) =>
      Fails(s, p, pod.calls.(invalidate := Raises(error)),
            AfterHandler(pod.line.pending, pod.line.cleanup, Raises(error)))
    case Disconnect(_) => s.(pods := s.pods[p := pod.(open := false)])
    case ServerEndsSession(_) =>
      Release(EndTransaction(s, p, false), p).(live := s.live - {p})
  }

  ghost predicate Executes(s: System, steps: seq<Step>, t: System)
    decreases steps
  {
    if steps == [] then s == t
    else Enabled(s, steps[0]) && Executes(Apply(s, steps[0]), steps[1..], t)
  }

  ghost predicate Reachable(t: System) {
    exists s, steps :: Init(s) && Executes(s, steps, t)
  }

  // ----- the invariant -----

  /** Between taking the lock and the first attempt to release it. */
  predicate Critical(pod: Pod) {
    match pod.line
    case Waiting => false
    case Finished(_) => false
    case Invalidating(_, _) => pod.calls.unlock.Normal?
    case _ => true
  }

  /** The cleanup gave up on a connection that it leaves open: its invalidate failed, or an Exit prevented it. */
  predicate Abandoned(c: Calls) {
    ReleaseBlock(c).Raises? && (c.invalidate.Raises? || !Caught(ReleaseBlock(c)))
  }

  /** k revisions after base. */
  ghost predicate Consecutive(revisions: seq<nat>, base: nat) {
    forall i :: 0 <= i < |revisions| ==> revisions[i] == base + i + 1
  }

  ghost predicate HolderInv(s: System) {
    s.holder.Some? ==>
      s.holder.value in s.pods && s.holder.value in s.live && !s.pods[s.holder.value].line.Waiting?
  }

  ghost predicate CriticalInv(s: System) {
    forall p :: Usable(s, p) && Critical(s.pods[p]) ==> s.holder == Some(p)
  }

  ghost predicate StagedInv(s: System) {
    forall p :: p in s.staged && s.staged[p] != [] ==> s.holder == Some(p)
  }

  /**
   A pod that has finished on a connection that works leaves the lock with it: the query
   for it raised although it was granted, or the cleanup was abandoned before an unlock.
   */
  predicate LeavesLocked(pod: Pod) {
    if pod.calls.acquire.Raises? then pod.grantedUnseen else Abandoned(pod.calls) && !pod.unlockedUnseen
  }

  predicate HistoryOk(pod: Pod) {
    && (pod.grantedUnseen ==> pod.calls.acquire.Raises?)
    && (pod.unlockedUnseen ==> pod.calls.unlock.Raises?)
  }

  /** Does p hold the lock, as far as its line tells? Asked of pods past the first attempt to release it. */
  predicate ShouldHold(pod: Pod) {
    if pod.line.Finished? then LeavesLocked(pod) else !pod.unlockedUnseen
  }

  ghost predicate FinishedInv(s: System) {
    && (forall p :: p in s.pods ==> HistoryOk(s.pods[p]))
    && (forall p :: Usable(s, p) && (s.pods[p].line.Finished? || s.pods[p].line.Invalidating?) ==>
          (s.holder == Some(p) <==> ShouldHold(s.pods[p])))
  }

  ghost predicate LockInv(s: System) {
    HolderInv(s) && CriticalInv(s) && StagedInv(s) && FinishedInv(s)
  }

  /** Is there a pod that ships revision r? */
  ghost predicate Shipped(s: System, r: nat) {
    exists p :: p in s.pods && r <= s.pods[p].head
  }

  ghost predicate WorkOf(s: System, p: nat)
    requires p in s.pods
  {
    match s.pods[p].line
    case Waiting => Staged(s, p) == []
    case Locked => Staged(s, p) == []
    case Upgrading(base) => base == |s.applied| && Consecutive(Staged(s, p), base)
    case Committing(base) =>
      base == |s.applied| && Consecutive(Staged(s, p), base) && Reached(s, p, base) == s.pods[p].head
    case Unlocking(_) => Staged(s, p) == []
    case Invalidating(_, _) => s.pods[p].calls.unlock.Raises? ==> Staged(s, p) == []
    case _ => true
  }

  /** Committed revisions have no gap, and a working pod in the upgrade builds on the last of them. */
  ghost predicate WorkInv(s: System) {
    && Consecutive(s.applied, 0)
    && (s.applied != [] ==> Shipped(s, |s.applied|))
    && (forall p :: Usable(s, p) ==> WorkOf(s, p))
  }

  /** Where a pod is and what it carries are the program text applied to the calls made so far. */
  predicate TextOf(pod: Pod) {
    var c := pod.calls;
    match pod.line
    case RollingBack(pending) =>
      c == NO_FAILURE.(upgrade := c.upgrade, commit := c.commit) && pending == TryBlock(c)
    case Unlocking(pending) =>
      c == NO_FAILURE.(upgrade := c.upgrade, commit := c.commit) && pending == TryBlock(c)
    case Invalidating(pending, cleanup) =>
      && c.acquire.Normal? && c.invalidate.Normal? && pending == TryBlock(c)
      && cleanup == ReleaseBlock(c) && Caught(cleanup)
    case Finished(outcome) => outcome == ProgramText(c)
    case _ => c == NO_FAILURE
  }

  /** The try block of p has completed normally. */
  predicate Migrated(pod: Pod) {
    && pod.calls.acquire.Normal? && TryBlock(pod.calls).Normal?
    && (pod.line.RollingBack? || pod.line.Unlocking? || pod.line.Invalidating? || pod.line.Finished?)
  }

  ghost predicate OutcomeInv(s: System) {
    forall p :: p in s.pods ==>
      TextOf(s.pods[p]) && (Migrated(s.pods[p]) ==> s.pods[p].head <= |s.applied|)
  }

  ghost predicate Inv(s: System) {
    LockInv(s) && WorkInv(s) && OutcomeInv(s)
  }

  lemma StepKeepsHolder(s: System, a: Step)
    requires HolderInv(s) && Enabled(s, a)
    ensures HolderInv(Apply(s, a))
  {
  }

  lemma StepKeepsCritical(s: System, a: Step)
    requires HolderInv(s) && CriticalInv(s) && Enabled(s, a) && TextOf(s.pods[a.p])
    ensures CriticalInv(Apply(s, a))
  {
  }

  /** Only a pod in the upgrade applies anything, and only an empty transaction is left when it unlocks. */
  lemma StepKeepsStaged(s: System, a: Step)
    requires CriticalInv(s) && StagedInv(s) && Enabled(s, a)
    requires Usable(s, a.p) ==> WorkOf(s, a.p)
    ensures StagedInv(Apply(s, a))
  {
  }

  lemma StepKeepsFinished(s: System, a: Step)
    requires HolderInv(s) && CriticalInv(s) && FinishedInv(s) && Enabled(s, a) && TextOf(s.pods[a.p])
    ensures FinishedInv(Apply(s, a))
  {
    StepKeepsHistoryOk(s, a);
    var t := Apply(s, a);
    forall p | Usable(t, p) && (t.pods[p].line.Finished? || t.pods[p].line.Invalidating?)
      ensures t.holder == Some(p) <==> ShouldHold(t.pods[p])
    {
      if p == a.p {
        OwnStepKeepsHold(s, a);
      } else {
        OthersStay(s, a, p);
      }
    }
  }

  lemma StepKeepsHistoryOk(s: System, a: Step)
    requires (forall p :: p in s.pods ==> HistoryOk(s.pods[p])) && Enabled(s, a) && TextOf(s.pods[a.p])
    ensures forall p :: p in Apply(s, a).pods ==> HistoryOk(Apply(s, a).pods[p])
  {
    forall p | p in Apply(s, a).pods ensures HistoryOk(Apply(s, a).pods[p]) {
      if p == a.p {
        OwnStepKeepsHistoryOk(s, a);
      } else {
        OthersStay(s, a, p);
      }
    }
  }

  lemma OwnStepKeepsHistoryOk(s: System, a: Step)
    requires Enabled(s, a) && TextOf(s.pods[a.p]) && HistoryOk(s.pods[a.p])
    ensures a.p in Apply(s, a).pods && HistoryOk(Apply(s, a).pods[a.p])
  {
  }

  lemma OwnStepKeepsHold(s: System, a: Step)
    requires Enabled(s, a) && TextOf(s.pods[a.p]) && HistoryOk(s.pods[a.p]) && Usable(Apply(s, a), a.p)
    requires Critical(s.pods[a.p]) ==> s.holder == Some(a.p)
    requires s.pods[a.p].line.Waiting? ==> s.holder != Some(a.p)
    requires s.pods[a.p].line.Finished? || s.pods[a.p].line.Invalidating? ==>
               (s.holder == Some(a.p) <==> ShouldHold(s.pods[a.p]))
    requires Apply(s, a).pods[a.p].line.Finished? || Apply(s, a).pods[a.p].line.Invalidating?
    ensures Apply(s, a).holder == Some(a.p) <==> ShouldHold(Apply(s, a).pods[a.p])
  {
  }

  lemma StepKeepsLock(s: System, a: Step)
    requires LockInv(s) && WorkInv(s) && Enabled(s, a) && TextOf(s.pods[a.p])
    ensures LockInv(Apply(s, a))
  {
    StepKeepsHolder(s, a);
    StepKeepsCritical(s, a);
    StepKeepsStaged(s, a);
    StepKeepsFinished(s, a);
  }

  /** The pods stay, with what they ship, and nothing committed is ever taken back. */
  lemma StepKeepsHistory(s: System, a: Step)
    requires Enabled(s, a)
    ensures Apply(s, a).pods.Keys == s.pods.Keys && s.applied <= Apply(s, a).applied
    ensures forall p :: p in s.pods ==> Apply(s, a).pods[p].head == s.pods[p].head
  {
  }

  lemma StepKeepsApplied(s: System, a: Step)
    requires LockInv(s) && WorkInv(s) && Enabled(s, a)
    ensures Consecutive(Apply(s, a).applied, 0)
    ensures Apply(s, a).applied != s.applied ==>
              |Apply(s, a).applied| == s.pods[a.p].head && s.pods[a.p].line.Committing?
  {
  }

  lemma StepKeepsWork(s: System, a: Step)
    requires LockInv(s) && WorkInv(s) && Enabled(s, a) && TextOf(s.pods[a.p])
    ensures WorkInv(Apply(s, a))
  {
    StepKeepsHistory(s, a);
    StepKeepsApplied(s, a);
    var t := Apply(s, a);
    if t.applied != [] {
      ShippedStays(s, a);
    }
    forall p | Usable(t, p) ensures WorkOf(t, p) {
      if p == a.p {
        OwnStepKeepsWork(s, a);
      } else {
        OtherStepKeepsWork(s, a, p);
      }
    }
  }

  /** Others do not touch the work of p, and cannot commit while p builds on the last revision. */
  lemma OtherStepKeepsWork(s: System, a: Step, p: nat)
    requires CriticalInv(s) && WorkInv(s) && Enabled(s, a) && p != a.p && Usable(Apply(s, a), p)
    ensures WorkOf(Apply(s, a), p)
  {
    assert Usable(s, p) && WorkOf(s, p);
    OthersStay(s, a, p);
  }

  lemma ShippedStays(s: System, a: Step)
    requires LockInv(s) && WorkInv(s) && Enabled(s, a) && Apply(s, a).applied != []
    ensures Shipped(Apply(s, a), |Apply(s, a).applied|)
  {
    StepKeepsHistory(s, a);
    StepKeepsApplied(s, a);
    var t := Apply(s, a);
    if t.applied == s.applied {
      var p :| p in s.pods && |s.applied| <= s.pods[p].head;
      assert p in t.pods && |t.applied| <= t.pods[p].head;
    } else {
      assert a.p in t.pods && |t.applied| <= t.pods[a.p].head;
    }
  }

  lemma OwnStepKeepsWork(s: System, a: Step)
    requires Enabled(s, a) && TextOf(s.pods[a.p]) && WorkOf(s, a.p) && Usable(Apply(s, a), a.p)
    ensures WorkOf(Apply(s, a), a.p)
  {
  }

  lemma StepKeepsText(s: System, a: Step)
    requires Enabled(s, a) && TextOf(s.pods[a.p])
    ensures TextOf(Apply(s, a).pods[a.p])
  {
  }

  lemma StepKeepsOutcome(s: System, a: Step)
    requires WorkInv(s) && OutcomeInv(s) && Enabled(s, a)
    ensures OutcomeInv(Apply(s, a))
  {
    StepKeepsHistory(s, a);
    StepKeepsText(s, a);
    StepKeepsMigrated(s, a);
    var t := Apply(s, a);
    forall p | p in t.pods ensures TextOf(t.pods[p]) && (Migrated(t.pods[p]) ==> t.pods[p].head <= |t.applied|) {
      if p != a.p {
        OthersStay(s, a, p);
      }
    }
  }

  lemma OthersStay(s: System, a: Step, p: nat)
    requires Enabled(s, a) && p in s.pods && p != a.p
    ensures p in Apply(s, a).pods && Apply(s, a).pods[p] == s.pods[p] && Staged(Apply(s, a), p) == Staged(s, p)
  {
  }

  lemma StepKeepsMigrated(s: System, a: Step)
    requires Enabled(s, a) && TextOf(s.pods[a.p]) && (Usable(s, a.p) ==> WorkOf(s, a.p))
    requires Migrated(s.pods[a.p]) ==> s.pods[a.p].head <= |s.applied|
    ensures a.p in Apply(s, a).pods
    ensures Migrated(Apply(s, a).pods[a.p]) ==> s.pods[a.p].head <= |Apply(s, a).applied|
  {
    StepKeepsHistory(s, a);
  }

  lemma StepKeepsInv(s: System, a: Step)
    requires Inv(s) && Enabled(s, a)
    ensures Inv(Apply(s, a))
  {
    StepKeepsLock(s, a);
    StepKeepsWork(s, a);
    StepKeepsOutcome(s, a);
  }

  lemma {:induction false} RunKeepsInv(s: System, steps: seq<Step>, t: System)
    requires Inv(s) && Executes(s, steps, t)
    ensures Inv(t) && s.applied <= t.applied && t.pods.Keys == s.pods.Keys
    ensures forall p :: p in s.pods ==> t.pods[p].head == s.pods[p].head
    decreases steps
  {
    if steps != [] {
      StepKeepsInv(s, steps[0]);
      StepKeepsHistory(s, steps[0]);
      RunKeepsInv(Apply(s, steps[0]), steps[1..], t);
    }
  }

  lemma InitInv(s: System)
    requires Init(s)
    ensures Inv(s)
  {
  }

  lemma ReachableInv(t: System)
    requires Reachable(t)
    ensures Inv(t)
  {
    var s, steps :| Init(s) && Executes(s, steps, t);
    InitInv(s);
    RunKeepsInv(s, steps, t);
  }

  // ----- what the protocol promises -----

  /**
   No two pods whose sessions still work are between taking and releasing the lock, and
   while one of them is, no other transaction has applied anything, not even one of a pod
   that lost its connection.
   */
  lemma OneMigrationAtATime(t: System, p: nat, q: nat)
    requires Reachable(t) && p != q && Usable(t, p) && Critical(t.pods[p])
    ensures Usable(t, q) ==> !Critical(t.pods[q])
    ensures Staged(t, q) == []
  {
    ReachableInv(t);
  }

  /** At any time at most one pod, connected or not, has work that is not committed. */
  lemma OneOpenTransaction(t: System, p: nat, q: nat)
    requires Reachable(t) && p != q
    ensures Staged(t, p) == [] || Staged(t, q) == []
  {
    ReachableInv(t);
  }

  /** The committed revisions are 1, 2, ..., each applied once, in order, and none that no pod ships. */
  lemma EachRevisionOnce(t: System)
    requires Reachable(t)
    ensures t.applied != [] ==> Shipped(t, |t.applied|)
    ensures forall i :: 0 <= i < |t.applied| ==> t.applied[i] == i + 1
    ensures forall r: nat :: multiset(t.applied)[r] == if 1 <= r <= |t.applied| then 1 else 0
  {
    ReachableInv(t);
    forall r: nat ensures multiset(t.applied)[r] == if 1 <= r <= |t.applied| then 1 else 0 {
      CountConsecutive(t.applied, r);
    }
  }

  lemma {:induction false} CountConsecutive(revisions: seq<nat>, r: nat)
    requires Consecutive(revisions, 0)
    ensures multiset(revisions)[r] == if 1 <= r <= |revisions| then 1 else 0
  {
    if revisions != [] {
      var last := |revisions| - 1;
      CountConsecutive(revisions[..last], r);
      assert revisions == revisions[..last] + [revisions[last]];
    }
  }

  /**
   A pod that returns normally leaves the database at its head or later, for good; if all
   pods ship the same revisions, at exactly this head, and nothing is applied any more.
   */
  lemma NormalReturnMeansHead(t: System, p: nat, steps: seq<Step>, u: System)
    requires Reachable(t) && p in t.pods && t.pods[p].line == Finished(Normal)
    requires Executes(t, steps, u)
    ensures t.pods[p].head <= |t.applied| && t.applied <= u.applied
    ensures (forall q :: q in t.pods ==> t.pods[q].head == t.pods[p].head) ==>
              |t.applied| == t.pods[p].head && u.applied == t.applied
  {
    ReachableInv(t);
    RunKeepsInv(t, steps, u);
    assert TextOf(t.pods[p]);
  }

  /**
   What escapes is what the program text makes of the calls: the error of the lock, the
   migration or the commit, or nothing if there is none, unless an Exit interrupts the cleanup.
   */
  lemma FirstErrorEscapes(t: System, p: nat)
    requires Reachable(t) && p in t.pods && t.pods[p].line.Finished?
    ensures var outcome, c := t.pods[p].line.outcome, t.pods[p].calls;
            && outcome == ProgramText(c)
            && outcome == (if Interrupted(c) then FinallyBlock(c) else FirstFailure(c))
            && (outcome == FirstFailure(c) <==> !Interrupted(c) || FinallyBlock(c) == FirstFailure(c))
  {
    ReachableInv(t);
    assert TextOf(t.pods[p]);
    FirstFailureEscapesExactlyWhen(t.pods[p].calls);
  }

  /**
   A finished pod whose session works keeps the lock exactly if the query for it raised
   although it was granted, or the cleanup failed, no unlock took effect, and the
   invalidate failed too or was prevented by an Exit. A finished pod that holds the lock
   on a connection it has not lost is such a pod.
   */
  lemma LockIsKeptExactlyWhen(t: System, p: nat)
    requires Reachable(t) && p in t.pods && t.pods[p].line.Finished?
    ensures Usable(t, p) ==> (t.holder == Some(p) <==> LeavesLocked(t.pods[p]))
    ensures t.holder == Some(p) ==> !t.pods[p].open || LeavesLocked(t.pods[p])
  {
    ReachableInv(t);
  }

  /** A connection may be lost and a session ended at any time; then nothing more of the pod reaches the server. */
  lemma SessionsCanBeLost(s: System, p: nat)
    requires p in s.pods
    ensures Enabled(s, Disconnect(p)) && !Usable(Apply(s, Disconnect(p)), p)
    ensures Apply(s, Disconnect(p)).holder == s.holder && Apply(s, Disconnect(p)).applied == s.applied
    ensures Enabled(s, ServerEndsSession(p)) && !Usable(Apply(s, ServerEndsSession(p)), p)
    ensures Apply(s, ServerEndsSession(p)).holder != Some(p) && Staged(Apply(s, ServerEndsSession(p)), p) == []
    ensures Apply(s, ServerEndsSession(p)).applied == s.applied
  {
  }

  /** A commit that raises may stand: then the database is at the head of its pod, otherwise as it was. */
  lemma RaisedCommitMayStand(s: System, p: nat, error: Error, took: bool)
    requires Reachable(s) && Enabled(s, CommitRaises(p, error, took))
    ensures var t := Apply(s, CommitRaises(p, error, took));
            if took then t.applied == s.applied + Staged(s, p) && |t.applied| == s.pods[p].head
            else t.applied == s.applied
  {
    if took {
      StagedReachesHead(s, p);
    }
  }

  /** A rollback that raises may have discarded the work; it never commits any. */
  lemma RaisedRollbackMayStand(s: System, p: nat, error: Error, took: bool)
    requires Enabled(s, RollbackRaises(p, error, took))
    ensures var t := Apply(s, RollbackRaises(p, error, took));
            t.applied == s.applied && Staged(t, p) == if took then [] else Staged(s, p)
  {
  }

  lemma StagedReachesHead(s: System, p: nat)
    requires Reachable(s) && Usable(s, p) && s.pods[p].line.Committing?
    ensures |s.applied| + |Staged(s, p)| == s.pods[p].head
  {
    ReachableInv(s);
    assert WorkOf(s, p);
  }

  /** While the session of the pod that has it lasts, nobody else gets a lock left behind, in any run. */
  lemma {:induction false} LeftLockBlocksAll(s: System, steps: seq<Step>, t: System, p: nat)
    requires p in s.pods && s.pods[p].line.Finished? && s.holder == Some(p)
    requires Executes(s, steps, t) && ServerEndsSession(p) !in steps
    ensures t.holder == Some(p)
    decreases steps
  {
    if steps != [] {
      LeftLockStays(s, steps[0], p);
      LeftLockBlocksAll(Apply(s, steps[0]), steps[1..], t, p);
    }
  }

  lemma LeftLockStays(s: System, a: Step, p: nat)
    requires p in s.pods && s.pods[p].line.Finished? && s.holder == Some(p)
    requires Enabled(s, a) && a != ServerEndsSession(p)
    ensures p in Apply(s, a).pods && Apply(s, a).pods[p].line.Finished? && Apply(s, a).holder == Some(p)
  {
  }

  // ----- the inputs for which it goes wrong -----

  /** One pod that ships one revision, before it has begun. */
  function OnePod(): System {
    System(map[0 := FreshPod(1)], None, {0}, map[], [])
  }

  lemma RunOfOne(s: System, a: Step)
    requires Enabled(s, a)
    ensures Executes(s, [a], Apply(s, a))
  {
    assert Executes(Apply(s, a), [], Apply(s, a));
  }

  lemma RunOfThree(s: System, a: Step, b: Step, c: Step)
    requires Enabled(s, a) && Enabled(Apply(s, a), b) && Enabled(Apply(Apply(s, a), b), c)
    ensures Executes(s, [a, b, c], Apply(Apply(Apply(s, a), b), c))
  {
    RunOfOne(Apply(Apply(s, a), b), c);
    assert [b, c][1..] == [c] && [a, b, c][1..] == [b, c];
    assert Executes(Apply(s, a), [b, c], Apply(Apply(Apply(s, a), b), c));
  }

  /** The query for the lock raises after the server has granted it, and the connection survives: nothing unlocks. */
  lemma GrantedQueryCanRaise(error: Error) returns (t: System)
    ensures Executes(OnePod(), [AcquireRaises(0, error, true)], t) && Reachable(t)
    ensures Usable(t, 0) && t.pods[0].line == Finished(Raises(error)) && t.holder == Some(0)
    ensures !Abandoned(t.pods[0].calls)
  {
    var a := AcquireRaises(0, error, true);
    t := Apply(OnePod(), a);
    RunOfOne(OnePod(), a);
    assert Init(OnePod());
  }

  /** An Exit during the rollback replaces the error of the migration. */
  lemma ExitCanMaskError(error: Error, what: string) returns (t: System)
    requires error != Exit(what)
    ensures Executes(OnePod(), [TryLock(0), UpgradeRaises(0, error), RollbackRaises(0, Exit(what), false)], t)
    ensures Reachable(t) && 0 in t.pods && t.pods[0].line == Finished(Raises(Exit(what)))
    ensures FirstFailure(t.pods[0].calls) == Raises(error)
  {
    var a, b, c := TryLock(0), UpgradeRaises(0, error), RollbackRaises(0, Exit(what), false);
    t := Apply(Apply(Apply(OnePod(), a), b), c);
    RunOfThree(OnePod(), a, b, c);
    assert Init(OnePod());
  }
}
