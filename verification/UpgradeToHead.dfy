/**
 The program text of upgrade_to_head: every statement takes one step of the protocol in
 Migrations, and before each of them other pods, the network and the server may take any.
 */
module UpgradeToHead {
  import opened Common
  import opened Completions
  import opened Migrations
  import opened AdvisoryLock

  /** What a statement on a lost connection raises, and an upgrade that meets an unknown revision. */
  const CONNECTION_LOST: Error := Raised("connection lost")
  const UNKNOWN_REVISION: Error := Raised("cannot locate revision")

  /**
   Where calls fail on a connection that works: acquire(i) is the i-th attempt at the lock,
   revisionsBefore how many revisions the upgrade applies before it raises. The last
   fields say whether the server carries out a call that raises.
   */
  datatype Plan = Plan(
    acquire: nat -> Completion,
    calls: Calls,
    revisionsBefore: nat,
    acquireTook: bool,
    commitTook: bool,
    rollbackTook: bool,
    unlockTook: bool)
  {
    ghost predicate Faultless() {
      (forall i: nat :: acquire(i).Normal?) && calls == NO_FAILURE
    }
  }

  lemma {:induction false} ExecutesOneMore(s: System, steps: seq<Step>, t: System, a: Step)
    requires Executes(s, steps, t) && Enabled(t, a)
    ensures Executes(s, steps + [a], Apply(t, a))
    decreases steps
  {
    if steps == [] {
      assert Executes(Apply(s, a), [], Apply(t, a));
    } else {
      assert (steps + [a])[1..] == steps[1..] + [a];
      ExecutesOneMore(Apply(s, steps[0]), steps[1..], t, a);
    }
  }

  /** Steps that are not statements of p; they include the loss of its session. */
  predicate Foreign(a: Step, p: nat) {
    a.p != p || a.Disconnect? || a.ServerEndsSession?
  }

  /** From s to t only others have acted: p is where it was, and has its work if it has its session. */
  predicate Undisturbed(s: System, t: System, p: nat) {
    && p in s.pods && p in t.pods
    && t.pods[p].(open := s.pods[p].open) == s.pods[p]
    && (Usable(t, p) ==> Usable(s, p) && Staged(t, p) == Staged(s, p))
    && (t.holder == Some(p) ==> s.holder == Some(p))
    && s.applied <= t.applied
  }

  lemma ForeignStepLeavesUndisturbed(s: System, a: Step, p: nat)
    requires p in s.pods && Enabled(s, a) && Foreign(a, p)
    ensures Undisturbed(s, Apply(s, a), p)
  {
    StepKeepsHistory(s, a);
    if a.p != p {
      OthersStay(s, a, p);
      OthersStayLive(s, a, p);
    }
  }

  lemma OthersStayLive(s: System, a: Step, p: nat)
    requires Enabled(s, a) && p != a.p
    ensures p in Apply(s, a).live <==> p in s.live
  {
  }

  /** What others make of s: of the steps they attempt, the foreign ones that are possible happen. */
  function AfterOthers(s: System, steps: seq<Step>, p: nat): System {
    if steps == [] then s
    else
      var t, a := AfterOthers(s, steps[..|steps| - 1], p), steps[|steps| - 1];
      if Foreign(a, p) && Enabled(t, a) then Apply(t, a) else t
  }

  lemma OneMoreOther(s: System, steps: seq<Step>, i: nat, p: nat)
    requires i < |steps|
    ensures var t, a := AfterOthers(s, steps[..i], p), steps[i];
            AfterOthers(s, steps[..i + 1], p) == if Foreign(a, p) && Enabled(t, a) then Apply(t, a) else t
  {
    assert steps[..i + 1][..i] == steps[..i] && steps[..i + 1][i] == steps[i];
  }

  /** Another session has the lock. */
  predicate HeldByOther(s: System, p: nat) {
    s.holder.Some? && s.holder.value != p
  }

  /** Step k of the run is a query of p for the lock, which it finds with another session. */
  ghost predicate FoundHeld(start: System, trace: seq<Step>, k: nat, p: nat) {
    && k < |trace| && trace[k] == TryLock(p)
    && exists s :: Executes(start, trace[..k], s) && HeldByOther(s, p)
  }

  lemma FoundHeldLonger(start: System, trace: seq<Step>, longer: seq<Step>, k: nat, p: nat)
    requires FoundHeld(start, trace, k, p) && trace <= longer
    ensures FoundHeld(start, longer, k, p)
  {
    assert longer[..k] == trace[..k];
  }

  /** These steps of the run, one after the other, are such queries. */
  ghost predicate AllFoundHeld(start: System, trace: seq<Step>, queries: seq<nat>, p: nat) {
    && (forall i, j :: 0 <= i < j < |queries| ==> queries[i] < queries[j])
    && (forall i :: 0 <= i < |queries| ==> FoundHeld(start, trace, queries[i], p))
  }

  lemma AllFoundHeldLonger(start: System, trace: seq<Step>, longer: seq<Step>, queries: seq<nat>, p: nat)
    requires AllFoundHeld(start, trace, queries, p) && trace <= longer
    ensures AllFoundHeld(start, longer, queries, p)
  {
    forall i | 0 <= i < |queries| ensures FoundHeld(start, longer, queries[i], p) {
      FoundHeldLonger(start, trace, longer, queries[i], p);
    }
  }

  lemma OneMoreFoundHeld(start: System, before: seq<Step>, trace: seq<Step>, queries: seq<nat>, p: nat)
    requires AllFoundHeld(start, before, queries, p) && before <= trace && |before| < |trace|
    requires FoundHeld(start, trace, |trace| - 1, p)
    ensures AllFoundHeld(start, trace, queries + [|trace| - 1], p)
  {
    AllFoundHeldLonger(start, before, trace, queries, p);
  }

  /** A waiting pod does not hold the lock. */
  lemma WaitingHoldsNothing(s: System, steps: seq<Step>, t: System, p: nat)
    requires Inv(s) && Executes(s, steps, t) && p in t.pods && t.pods[p].line.Waiting?
    ensures t.holder != Some(p)
  {
    RunKeepsInv(s, steps, t);
  }

  /** A pod that holds the lock and has not begun the upgrade has applied nothing. */
  lemma LockedPodHasAppliedNothing(s: System, steps: seq<Step>, t: System, p: nat)
    requires Inv(s) && Executes(s, steps, t) && Usable(t, p) && t.pods[p].line.Locked?
    ensures Staged(t, p) == []
  {
    RunKeepsInv(s, steps, t);
    assert WorkOf(t, p);
  }

  /** What the invariant says of a pod at the end of the function. */
  lemma FinishedPod(s: System, steps: seq<Step>, t: System, p: nat)
    requires Inv(s) && Executes(s, steps, t) && p in t.pods && t.pods[p].line.Finished?
    ensures t.pods[p].line.outcome == ProgramText(t.pods[p].calls)
    ensures t.pods[p].line.outcome.Normal? ==> t.pods[p].head <= |t.applied|
    ensures Usable(t, p) ==> (t.holder == Some(p) <==> LeavesLocked(t.pods[p]))
  {
    RunKeepsInv(s, steps, t);
    PodAtTheEnd(t, p);
  }

  lemma PodAtTheEnd(t: System, p: nat)
    requires OutcomeInv(t) && FinishedInv(t) && p in t.pods && t.pods[p].line.Finished?
    ensures t.pods[p].line.outcome == ProgramText(t.pods[p].calls)
    ensures t.pods[p].line.outcome.Normal? ==> t.pods[p].head <= |t.applied|
    ensures Usable(t, p) ==> (t.holder == Some(p) <==> LeavesLocked(t.pods[p]))
  {
    assert TextOf(t.pods[p]);
  }

  class Database {
    var state: System
    /** others(i) is what others attempt before the i-th statement; what is not possible then does not happen. */
    const others: nat -> seq<Step>
    var moment: nat
    ghost var start: System
    ghost var trace: seq<Step>

    /** What has happened since start is a run of the protocol. */
    ghost predicate Valid()
      reads this
    {
      Executes(start, trace, state)
    }

    constructor (s: System, others: nat -> seq<Step>)
      ensures Valid() && state == start == s && this.others == others
    {
      state := s;
      start := s;
      trace := [];
      moment := 0;
      this.others := others;
    }

    method Take(a: Step)
      requires Valid() && Enabled(state, a)
      modifies `state, `trace
      ensures Valid() && start == old(start) && trace == old(trace) + [a]
      ensures state == Apply(old(state), a)
    {
      ExecutesOneMore(start, trace, state, a);
      trace := trace + [a];
      state := Apply(state, a);
    }

    /** Between two statements of p. */
    method Interfere(p: nat)
      requires Valid() && p in state.pods
      modifies this
      ensures Valid() && start == old(start) && old(trace) <= trace && moment == old(moment) + 1
      ensures Undisturbed(old(state), state, p) && state == AfterOthers(old(state), others(old(moment)), p)
    {
      var steps := others(moment);
      moment := moment + 1;
      for i := 0 to |steps|
        invariant Valid() && start == old(start) && old(trace) <= trace && moment == old(moment) + 1
        invariant Undisturbed(old(state), state, p) && state == AfterOthers(old(state), steps[..i], p)
      {
        OneMoreOther(old(state), steps, i, p);
        if Foreign(steps[i], p) && Enabled(state, steps[i]) {
          ForeignStepLeavesUndisturbed(state, steps[i], p);
          Take(steps[i]);
        }
      }
      assert steps[..|steps|] == steps;
    }
  }

  /** The pod, and what it stands for from one statement to the next. */
  ghost predicate At(db: Database, p: nat, line: Line)
    reads db
  {
    db.Valid() && p in db.state.pods && db.state.pods[p].line == line
  }

  /**
   One query for the lock, the i-th: None if, and only if, it finds the lock with another
   session. held says whether the last step of the run is such a query.
   */
  method TryOnce(db: Database, p: nat, plan: Plan, i: nat) returns (answer: Option<Completion>, ghost held: bool)
    requires At(db, p, Waiting) && db.state.holder != Some(p)
    modifies db
    ensures db.start == old(db.start) && old(db.state).applied <= db.state.applied && old(db.trace) <= db.trace
    ensures At(db, p, match answer
                      case None => Waiting
                      case Some(c) => if c.Normal? then Locked else Finished(c))
    ensures db.state.pods[p].head == old(db.state).pods[p].head
    ensures answer.None? ==> HeldByOther(db.state, p) && plan.acquire(i).Normal?
    ensures answer.None? ==> held
    ensures |old(db.trace)| < |db.trace| && held == FoundHeld(db.start, db.trace, |db.trace| - 1, p)
    ensures answer == Some(Normal) ==> Usable(db.state, p) && db.state.holder == Some(p) && plan.acquire(i).Normal?
    ensures answer.Some? && answer.value.Raises? ==>
              answer.value == plan.acquire(i) || (answer.value == Raises(CONNECTION_LOST) && !Usable(db.state, p))
  {
    db.Interfere(p);
    answer, held := Query(db, p, plan, i);
  }

  method Query(db: Database, p: nat, plan: Plan, i: nat) returns (answer: Option<Completion>, ghost held: bool)
    requires At(db, p, Waiting) && db.state.holder != Some(p)
    modifies db
    ensures db.start == old(db.start) && old(db.state).applied == db.state.applied && old(db.trace) < db.trace
    ensures At(db, p, match answer
                      case None => Waiting
                      case Some(c) => if c.Normal? then Locked else Finished(c))
    ensures db.state.pods[p].head == old(db.state).pods[p].head
    ensures answer.None? ==> HeldByOther(db.state, p) && plan.acquire(i).Normal? && held
    ensures held == FoundHeld(db.start, db.trace, |db.trace| - 1, p)
    ensures answer == Some(Normal) ==> Usable(db.state, p) && db.state.holder == Some(p) && plan.acquire(i).Normal?
    ensures answer.Some? && answer.value.Raises? ==>
              answer.value == plan.acquire(i) || (answer.value == Raises(CONNECTION_LOST) && !Usable(db.state, p))
  {
    if Usable(db.state, p) && plan.acquire(i).Normal? {
      answer, held := Ask(db, p);
      return;
    }
    var error := if Usable(db.state, p) then plan.acquire(i).error else CONNECTION_LOST;
    held := AskInVain(db, p, error, plan.acquireTook && Usable(db.state, p) && db.state.holder.None?);
    answer := Some(Raises(error));
  }

  /** SELECT pg_try_advisory_lock, raising. */
  method AskInVain(db: Database, p: nat, error: Error, took: bool) returns (ghost held: bool)
    requires At(db, p, Waiting) && (took ==> Usable(db.state, p) && db.state.holder.None?)
    modifies db
    ensures At(db, p, Finished(Raises(error)))
    ensures db.start == old(db.start) && db.state.applied == old(db.state).applied && old(db.trace) < db.trace
    ensures db.state.pods[p].head == old(db.state).pods[p].head
    ensures Usable(db.state, p) <==> Usable(old(db.state), p)
    ensures held == FoundHeld(db.start, db.trace, |db.trace| - 1, p)
  {
    db.Take(AcquireRaises(p, error, took));
    held := FoundHeld(db.start, db.trace, |db.trace| - 1, p);
  }

  /** SELECT pg_try_advisory_lock, answered. */
  method Ask(db: Database, p: nat) returns (answer: Option<Completion>, ghost held: bool)
    requires At(db, p, Waiting) && Usable(db.state, p) && db.state.holder != Some(p)
    modifies db
    ensures db.start == old(db.start) && db.state.applied == old(db.state).applied && old(db.trace) < db.trace
    ensures answer == if HeldByOther(old(db.state), p) then None else Some(Normal)
    ensures answer.None? ==> db.state == old(db.state) && held
    ensures held == FoundHeld(db.start, db.trace, |db.trace| - 1, p)
    ensures At(db, p, if answer.None? then Waiting else Locked) && Usable(db.state, p)
    ensures answer.Some? ==> db.state.holder == Some(p)
    ensures db.state.pods[p].head == old(db.state).pods[p].head
  {
    answer := if db.state.holder.None? then Some(Normal) else None;
    ghost var before, met := db.trace, db.state;
    db.Take(TryLock(p));
    assert db.trace[..|before|] == before;
    assert Executes(db.start, db.trace[..|before|], met);
    held := FoundHeld(db.start, db.trace, |db.trace| - 1, p);
  }

  /** TryOnce, keeping the account of the queries that found the lock held. */
  method NextAttempt(db: Database, p: nat, plan: Plan, i: nat, ghost before: seq<nat>)
    returns (answer: Option<Completion>, ghost queries: seq<nat>)
    requires At(db, p, Waiting) && db.state.holder != Some(p) && AllFoundHeld(db.start, db.trace, before, p)
    modifies db
    ensures db.start == old(db.start) && old(db.state).applied <= db.state.applied
    ensures At(db, p, match answer
                      case None => Waiting
                      case Some(c) => if c.Normal? then Locked else Finished(c))
    ensures db.state.pods[p].head == old(db.state).pods[p].head
    ensures AllFoundHeld(db.start, db.trace, queries, p)
    ensures |queries| == if answer.None? then |before| + 1 else |before|
    ensures answer.None? ==> HeldByOther(db.state, p) && plan.acquire(i).Normal?
    ensures answer == Some(Normal) ==> Usable(db.state, p) && db.state.holder == Some(p)
    ensures answer.Some? ==>
              answer.value == plan.acquire(i) || (answer.value == Raises(CONNECTION_LOST) && !Usable(db.state, p))
  {
    ghost var upToNow := db.trace;
    ghost var held;
    answer, held := TryOnce(db, p, plan, i);
    if answer.None? {
      OneMoreFoundHeld(db.start, upToNow, db.trace, before, p);
      queries := before + [|db.trace| - 1];
    } else {
      AllFoundHeldLonger(db.start, upToNow, db.trace, before, p);
      queries := before;
    }
  }

  /** The RuntimeError after the deadline. */
  method GivesUp(db: Database, p: nat, ghost queries: seq<nat>)
    requires At(db, p, Waiting) && AllFoundHeld(db.start, db.trace, queries, p)
    modifies db
    ensures At(db, p, Finished(Raises(LockTimeout))) && AllFoundHeld(db.start, db.trace, queries, p)
    ensures db.start == old(db.start) && db.state.applied == old(db.state).applied
    ensures db.state.holder == old(db.state).holder && db.state.pods[p].head == old(db.state).pods[p].head
  {
    ghost var before := db.trace;
    db.Take(GiveUp(p));
    AllFoundHeldLonger(db.start, before, db.trace, queries, p);
  }

  /**
   _acquire_advisory_lock. It ends holding the lock, or raises: LockTimeout only when the
   full timeout has passed, an attempt after that has failed too, and every attempt found
   the lock with another session. queries are the
   steps of the run at which they were made.
   */
  method AcquireAdvisoryLock(db: Database, p: nat, plan: Plan, polling: Polling)
    returns (completion: Completion, attempts: nat, loggedWait: bool, ghost queries: seq<nat>)
    requires At(db, p, Waiting) && polling.Sane() && db.state.holder != Some(p)
    requires forall i: nat :: plan.acquire(i) != Raises(LockTimeout)
    modifies db
    ensures db.start == old(db.start) && old(db.state).applied <= db.state.applied
    ensures At(db, p, if completion.Normal? then Locked else Finished(completion))
    ensures completion.Normal? ==> Usable(db.state, p) && db.state.holder == Some(p)
    ensures db.state.pods[p].head == old(db.state).pods[p].head
    ensures 1 <= attempts <= MaxAttempts(polling) && polling.KeepsWaiting(attempts - 1)
    ensures loggedWait <==> attempts > 1 || completion == Raises(LockTimeout)
    ensures completion == Raises(LockTimeout) ==>
              polling.clock(attempts - 1) >= polling.Deadline() && HeldByOther(db.state, p)
    ensures |queries| == if completion == Raises(LockTimeout) then attempts else attempts - 1
    ensures AllFoundHeld(db.start, db.trace, queries, p) && forall i :: 0 <= i < |queries| ==> plan.acquire(i).Normal?
    ensures completion != Raises(LockTimeout) ==>
              completion == plan.acquire(attempts - 1)
              || (completion == Raises(CONNECTION_LOST) && !Usable(db.state, p))
  {
    attempts := 0;
    loggedWait := false;
    queries := [];
    while true
      invariant At(db, p, Waiting) && db.start == old(db.start) && old(db.state).applied <= db.state.applied
      invariant db.state.pods[p].head == old(db.state).pods[p].head
      invariant polling.KeepsWaiting(attempts) && |queries| == attempts && db.state.holder != Some(p)
      invariant AllFoundHeld(db.start, db.trace, queries, p)
      invariant forall i :: 0 <= i < |queries| ==> plan.acquire(i).Normal?
      invariant loggedWait <==> attempts > 0
      decreases MaxAttempts(polling) - attempts
    {
      WaitingIsBounded(polling, attempts);
      var answer;
      answer, queries := NextAttempt(db, p, plan, attempts, queries);
      attempts := attempts + 1;
      if answer.Some? {
        return answer.value, attempts, loggedWait, queries;
      }
      if !loggedWait {
        loggedWait := true;
      }
      if polling.clock(attempts - 1) >= polling.Deadline() {
        GivesUp(db, p, queries);
        return Raises(LockTimeout), attempts, loggedWait, queries;
      }
      assert polling.KeepsWaiting(attempts);
    }
  }

  /** The try block: command.upgrade, then commit. */
  method Migrate(db: Database, p: nat, plan: Plan) returns (completion: Completion)
    requires At(db, p, Locked) && Usable(db.state, p) && Inv(db.start)
    modifies db
    ensures At(db, p, RollingBack(completion)) && db.start == old(db.start)
    ensures db.state.pods[p].head == old(db.state).pods[p].head && old(db.state).applied <= db.state.applied
    ensures completion in {Normal, Raises(CONNECTION_LOST), Raises(UNKNOWN_REVISION),
                           plan.calls.upgrade, plan.calls.commit}
    ensures plan.calls.upgrade.Raises? || plan.calls.commit.Raises? ==> completion.Raises?
    ensures Usable(db.state, p) ==> completion == TryBlock(plan.calls) || db.state.pods[p].head < |db.state.applied|
  {
    db.Interfere(p);
    if !Usable(db.state, p) {
      db.Take(UpgradeRaises(p, CONNECTION_LOST));
      return Raises(CONNECTION_LOST);
    }
    LockedPodHasAppliedNothing(db.start, db.trace, db.state, p);
    db.Take(ReadVersion(p));
    completion := RunUpgrade(db, p, plan);
    if completion.Normal? {
      completion := CommitAll(db, p, plan);
    }
  }

  method CommitAll(db: Database, p: nat, plan: Plan) returns (completion: Completion)
    requires db.Valid() && Usable(db.state, p) && db.state.pods[p].line.Committing?
    modifies db
    ensures At(db, p, RollingBack(completion)) && db.start == old(db.start)
    ensures db.state.pods[p].head == old(db.state).pods[p].head && old(db.state).applied <= db.state.applied
    ensures completion in {plan.calls.commit, Raises(CONNECTION_LOST)}
    ensures Usable(db.state, p) ==> completion == plan.calls.commit
    ensures plan.calls.commit.Raises? ==> completion.Raises?
  {
    db.Interfere(p);
    completion := if Usable(db.state, p) then plan.calls.commit else Raises(CONNECTION_LOST);
    if completion.Raises? {
      db.Take(CommitRaises(p, completion.error, plan.commitTook && Usable(db.state, p)));
    } else {
      db.Take(Commit(p));
    }
  }

  /** The rest of command.upgrade: one revision after the other up to head. */
  method RunUpgrade(db: Database, p: nat, plan: Plan) returns (completion: Completion)
    requires db.Valid() && Usable(db.state, p) && Staged(db.state, p) == []
    requires db.state.pods[p].line == Upgrading(|db.state.applied|)
    modifies db
    ensures db.Valid() && p in db.state.pods && db.start == old(db.start)
    ensures db.state.pods[p].head == old(db.state).pods[p].head && old(db.state).applied <= db.state.applied
    ensures completion.Normal? ==> db.state.pods[p].line.Committing? && Usable(db.state, p)
    ensures completion.Raises? ==> db.state.pods[p].line == RollingBack(completion)
    ensures completion in {Normal, Raises(CONNECTION_LOST), Raises(UNKNOWN_REVISION), plan.calls.upgrade}
    ensures plan.calls.upgrade.Raises? ==> completion.Raises?
    ensures completion.Raises? && Usable(db.state, p) ==>
              completion == plan.calls.upgrade || db.state.pods[p].head < |db.state.applied|
  {
    var done := 0;
    while true
      invariant db.Valid() && Usable(db.state, p) && db.start == old(db.start)
      invariant db.state.pods[p].head == old(db.state).pods[p].head && old(db.state).applied <= db.state.applied
      invariant db.state.pods[p].line == Upgrading(|old(db.state).applied|)
      invariant Staged(db.state, p) == [] || Reached(db.state, p, |old(db.state).applied|) <= db.state.pods[p].head
      decreases db.state.pods[p].head - Reached(db.state, p, db.state.pods[p].line.base)
    {
      db.Interfere(p);
      var reached := Reached(db.state, p, db.state.pods[p].line.base);
      if !Usable(db.state, p) {
        completion := Raises(CONNECTION_LOST);
      } else if plan.calls.upgrade.Raises? && (done >= plan.revisionsBefore || reached >= db.state.pods[p].head) {
        completion := plan.calls.upgrade;
      } else if reached > db.state.pods[p].head {
        completion := Raises(UNKNOWN_REVISION);
      } else {
        completion := Normal;
      }
      if completion.Raises? {
        db.Take(UpgradeRaises(p, completion.error));
        return;
      }
      if reached == db.state.pods[p].head {
        db.Take(UpgradeReturns(p));
        return;
      }
      db.Take(ApplyRevision(p));
      done := done + 1;
    }
  }

  /** The release block: roll back, then unlock. */
  method ReleaseLock(db: Database, p: nat, plan: Plan, pending: Completion) returns (release: Completion)
    requires At(db, p, RollingBack(pending))
    modifies db
    ensures At(db, p, if release.Normal? then Finished(pending) else AfterRelease(pending, release))
    ensures db.start == old(db.start) && release == ReleaseBlock(plan.calls)
    ensures db.state.pods[p].head == old(db.state).pods[p].head && old(db.state).applied <= db.state.applied
    ensures Usable(db.state, p) ==> Usable(old(db.state), p) && (release.Normal? ==> db.state.holder != Some(p))
  {
    db.Interfere(p);
    release := plan.calls.rollback;
    if release.Raises? {
      db.Take(RollbackRaises(p, release.error, plan.rollbackTook && Usable(db.state, p)));
      return;
    }
    db.Take(Rollback(p));
    Unlocks(db, p, plan, pending);
    release := plan.calls.unlock;
  }

  method Unlocks(db: Database, p: nat, plan: Plan, pending: Completion)
    requires At(db, p, Unlocking(pending))
    modifies db
    ensures db.start == old(db.start)
    ensures At(db, p, if plan.calls.unlock.Normal? then Finished(pending) else AfterRelease(pending, plan.calls.unlock))
    ensures db.state.pods[p].head == old(db.state).pods[p].head && old(db.state).applied <= db.state.applied
    ensures Usable(db.state, p) ==>
              Usable(old(db.state), p) && (plan.calls.unlock.Normal? ==> db.state.holder != Some(p))
  {
    db.Interfere(p);
    if plan.calls.unlock.Raises? {
      db.Take(UnlockRaises(p, plan.calls.unlock.error, plan.unlockTook && Usable(db.state, p)));
    } else {
      db.Take(Unlock(p));
    }
  }

  /** The handler of the release block. */
  method DiscardConnection(db: Database, p: nat, plan: Plan, pending: Completion, cleanup: Completion)
    requires At(db, p, Invalidating(pending, cleanup))
    modifies db
    ensures At(db, p, AfterHandler(pending, cleanup, plan.calls.invalidate)) && db.start == old(db.start)
    ensures db.state.pods[p].head == old(db.state).pods[p].head && old(db.state).applied <= db.state.applied
    ensures Usable(db.state, p) ==> Usable(old(db.state), p)
    ensures plan.calls.invalidate.Normal? ==> !db.state.pods[p].open
  {
    db.Interfere(p);
    if plan.calls.invalidate.Raises? {
      db.Take(InvalidateRaises(p, plan.calls.invalidate.error));
    } else {
      db.Take(Invalidate(p));
    }
  }

  /** The finally block: release the lock, and if that raises an Exception, invalidate the connection. */
  method CleanUp(db: Database, p: nat, plan: Plan, pending: Completion) returns (outcome: Completion)
    requires At(db, p, RollingBack(pending))
    modifies db
    ensures At(db, p, Finished(outcome)) && db.start == old(db.start)
    ensures db.state.pods[p].head == old(db.state).pods[p].head && old(db.state).applied <= db.state.applied
    ensures outcome == Finally(pending, FinallyBlock(plan.calls))
    ensures Usable(db.state, p) ==> Usable(old(db.state), p)
    ensures ReleaseBlock(plan.calls).Normal? && Usable(db.state, p) ==> db.state.holder != Some(p)
    ensures Caught(ReleaseBlock(plan.calls)) && plan.calls.invalidate.Normal? ==> !db.state.pods[p].open
  {
    var release := ReleaseLock(db, p, plan, pending);
    if Caught(release) {
      DiscardConnection(db, p, plan, pending, release);
    }
    outcome := db.state.pods[p].line.outcome;
  }

  /** Everything from the try block on. */
  method MigrateAndCleanUp(db: Database, p: nat, plan: Plan) returns (outcome: Completion)
    requires At(db, p, Locked) && Usable(db.state, p) && Inv(db.start)
    modifies db
    ensures At(db, p, Finished(outcome)) && db.start == old(db.start)
    ensures db.state.pods[p].head == old(db.state).pods[p].head && old(db.state).applied <= db.state.applied
    ensures Usable(db.state, p) && |db.state.applied| <= db.state.pods[p].head ==>
              outcome == Finally(TryBlock(plan.calls), FinallyBlock(plan.calls))
    ensures plan.calls == NO_FAILURE ==> outcome != Raises(LockTimeout)
    ensures ReleaseBlock(plan.calls).Normal? && Usable(db.state, p) ==> db.state.holder != Some(p)
  {
    var pending := Migrate(db, p, plan);
    outcome := CleanUp(db, p, plan, pending);
  }

  /**
   The whole function, whatever else happens in between. What escapes is the program text
   applied to the calls as they completed, and on a session that lasts, with no newer
   revision found, to the calls as they were to complete; a normal return has seen the
   database at head; on a session that lasts the lock is kept exactly as LeavesLocked says.
   If nothing fails only the timeout can stop it, and only if every attempt, up to one after
   the full timeout, found the lock with another session.
   */
  method UpgradeToHead(db: Database, p: nat, plan: Plan, polling: Polling)
    returns (outcome: Completion, acquired: Completion, attempts: nat, ghost queries: seq<nat>)
    requires At(db, p, Waiting) && polling.Sane() && Inv(db.start)
    requires forall i: nat :: plan.acquire(i) != Raises(LockTimeout)
    modifies db
    ensures At(db, p, Finished(outcome)) && db.start == old(db.start)
    ensures attempts >= 1 && outcome == ProgramText(db.state.pods[p].calls)
    ensures Usable(db.state, p) && |db.state.applied| <= old(db.state).pods[p].head ==>
              outcome == ProgramText(plan.calls.(acquire := acquired))
              && (acquired == Raises(LockTimeout) || acquired == plan.acquire(attempts - 1))
    ensures outcome.Normal? ==> old(db.state).pods[p].head <= |db.state.applied|
    ensures Usable(db.state, p) ==> (db.state.holder == Some(p) <==> LeavesLocked(db.state.pods[p]))
    ensures plan.Faultless() && Usable(db.state, p) && |db.state.applied| <= old(db.state).pods[p].head ==>
              outcome == Raises(LockTimeout) || (outcome == Normal && db.state.holder != Some(p))
    ensures acquired == Raises(LockTimeout) ==>
              |queries| == attempts && AllFoundHeld(db.start, db.trace, queries, p)
              && polling.clock(attempts - 1) >= polling.Deadline()
    ensures plan.Faultless() && outcome == Raises(LockTimeout) ==> acquired == outcome
  {
    WaitingHoldsNothing(db.start, db.trace, db.state, p);
    var loggedWait;
    acquired, attempts, loggedWait, queries := AcquireAdvisoryLock(db, p, plan, polling);
    outcome := acquired;
    if acquired.Normal? {
      outcome := MigrateAndCleanUp(db, p, plan);
    }
    FinishedPod(db.start, db.trace, db.state, p);
  }
}
