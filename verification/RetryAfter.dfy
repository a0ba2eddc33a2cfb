/** What retry_after promises to a rejected caller. */
module RetryAfter {
  import opened Common
  import opened Rounding
  import opened RateLimit
  import opened RateLimitTheorems
  import opened RateBound

  /** The Retry-After header of _enforce: whole seconds (section 10.2.3 of RFC 9110). */
  function Header(retryAfter: real): int {
    Ceil(retryAfter)
  }

  /** The checks of k from position i on. */
  function ChecksOf(log: seq<Event>, i: nat, k: string): nat {
    if |log| <= i then 0
    else
      var e := log[|log| - 1];
      ChecksOf(log[..|log| - 1], i, k) + if e.Check? && e.key == k then 1 else 0
  }

  /** All checks of k from position i on happen before time u. */
  predicate ChecksBefore(log: seq<Event>, i: nat, k: string, u: real) {
    forall j :: i <= j < |log| && log[j].Check? && log[j].key == k ==> log[j].now < u
  }

  /** A rejection at time t with retry_after d leaves the key locked until exactly t + d. */
  lemma RejectionLocksUntil(l: Limits, b: Option<Bucket>, t: real)
    requires l.Sensible() && t >= 0.0 && AttemptOn(l, b, t).1.Rejected?
    ensures AttemptOn(l, b, t).0.lockedUntil == t + AttemptOn(l, b, t).1.retryAfter > t
  {
  }

  /** While all checks of k come before the end of its lockout, its bucket does not change. */
  lemma {:induction false} LockedKeyIsFrozen(l: Limits, log: seq<Event>, i: nat, k: string)
    requires i <= |log| && InOrder(log) && NoReset(log, i, k) && OwnBucket(l, k, log[..i]).Some?
    requires ChecksBefore(log, i, k, OwnBucket(l, k, log[..i]).value.lockedUntil)
    ensures OwnBucket(l, k, log) == OwnBucket(l, k, log[..i])
    decreases |log|
  {
    if |log| == i {
      assert log[..i] == log;
    } else {
      var before := log[..|log| - 1];
      assert before[..i] == log[..i];
      assert NoReset(before, i, k);
      LockedKeyIsFrozen(l, before, i, k);
    }
  }

  /**
   A check of k is rejected at position i, at time t, with retry_after d. As long as k is
   not reset, a later check at u is rejected with what is left of d if u < t + d, however
   many checks came between; if u >= t + d and no check of k came since t + d, it is let
   through and starts a fresh window.
   */
  lemma RetryAfterIsExact(l: Limits, sweeping: Sweeping, log: seq<Event>, i: nat, k: string, t: real, d: real, u: real)
    requires l.Sensible() && l.maxAttempts >= 1 && InOrder(log + [Check(k, u)])
    requires i < |log| && log[i] == Check(k, t) && NoReset(log, i, k)
    requires Answer(l, sweeping, After(l, sweeping, log[..i]), k, t) == Rejected(d)
    requires ChecksBefore(log, i, k, t + d)
    ensures d > 0.0
    ensures var v := Answer(l, sweeping, After(l, sweeping, log), k, u);
            if u < t + d then v == Rejected(t + d - u) else v == Allowed
    ensures u >= t + d ==> OwnBucket(l, k, log + [Check(k, u)]) == Some(Bucket(1, u, 0.0))
  {
    var full := log + [Check(k, u)];
    assert full[..|full| - 1] == log;
    PrefixInOrder(log, i);
    PrefixInOrder(log, i + 1);
    assert log[..i + 1][..i] == log[..i];
    NeverNegative(log[..i]);
    AnswerFromOwnHistory(l, sweeping, log[..i], k, t);
    RejectionLocksUntil(l, OwnBucket(l, k, log[..i]), t);
    LockedKeyIsFrozen(l, log, i + 1, k);
    AnswerFromOwnHistory(l, sweeping, log, k, u);
  }

  lemma {:induction false} PrefixInOrder(log: seq<Event>, i: nat)
    requires InOrder(log) && i <= |log|
    ensures InOrder(log[..i])
    decreases |log|
  {
    if i < |log| {
      var before := log[..|log| - 1];
      assert before[..i] == log[..i];
      PrefixInOrder(before, i);
    } else {
      assert log[..i] == log;
    }
  }

  /**
   The window that a check at u starts admits exactly maxAttempts checks: after n further
   ones in it, the next one passes if and only if 1 + n < maxAttempts.
   */
  lemma FreshWindowHasFullBudget(l: Limits, sweeping: Sweeping, log: seq<Event>, i: nat, k: string, u: real, now: real)
    requires l.Sensible() && i <= |log| && InOrder(log) && NoReset(log, i, k)
    requires OwnBucket(l, k, log[..i]) == Some(Bucket(1, u, 0.0)) && ChecksBefore(log, i, k, u + l.window)
    requires LastTime(log) <= now < u + l.window && 1 + ChecksOf(log, i, k) <= l.maxAttempts
    ensures Answer(l, sweeping, After(l, sweeping, log), k, now).Allowed? <==> 1 + ChecksOf(log, i, k) < l.maxAttempts
  {
    WindowCounts(l, log, i, k, u);
    NeverNegative(log);
    AnswerFromOwnHistory(l, sweeping, log, k, now);
  }

  /**
   The check that exceeds the budget of its window is the one that locks: it is rejected
   for exactly the lockout time.
   */
  lemma ExceedingLocksForLockout(l: Limits, sweeping: Sweeping, log: seq<Event>, i: nat, k: string, u: real, now: real)
    requires l.Sensible() && i <= |log| && InOrder(log) && NoReset(log, i, k)
    requires OwnBucket(l, k, log[..i]) == Some(Bucket(1, u, 0.0)) && ChecksBefore(log, i, k, u + l.window)
    requires LastTime(log) <= now < u + l.window && 1 + ChecksOf(log, i, k) == l.maxAttempts
    ensures Answer(l, sweeping, After(l, sweeping, log), k, now) == Rejected(l.lockout)
  {
    WindowCounts(l, log, i, k, u);
    NeverNegative(log);
    AnswerFromOwnHistory(l, sweeping, log, k, now);
  }

  /**
   From that check, at position j and time t, on: without a reset every check of k before
   t + lockout is refused with what is left of it, and the first one from then on passes.
   */
  lemma LockoutLastsExactly(l: Limits, sweeping: Sweeping, log: seq<Event>, i: nat, j: nat, k: string,
                            u: real, t: real, w: real)
    requires l.Sensible() && l.maxAttempts >= 1 && i <= j < |log| && InOrder(log + [Check(k, w)]) && NoReset(log, i, k)
    requires OwnBucket(l, k, log[..i]) == Some(Bucket(1, u, 0.0)) && ChecksBefore(log[..j], i, k, u + l.window)
    requires log[j] == Check(k, t) && t < u + l.window && 1 + ChecksOf(log[..j], i, k) == l.maxAttempts
    requires ChecksBefore(log, j, k, t + l.lockout)
    ensures Answer(l, sweeping, After(l, sweeping, log), k, w)
         == if w < t + l.lockout then Rejected(t + l.lockout - w) else Allowed
  {
    var full := log + [Check(k, w)];
    assert full[..|full| - 1] == log;
    PrefixInOrder(log, j);
    PrefixInOrder(log, j + 1);
    assert log[..j + 1][..j] == log[..j] && log[..j][..i] == log[..i];
    assert NoReset(log[..j], i, k) && NoReset(log, j, k);
    ExceedingLocksForLockout(l, sweeping, log[..j], i, k, u, t);
    RetryAfterIsExact(l, sweeping, log, j, k, t, l.lockout, w);
  }

  /** A key without a bucket, with an expired window or with an expired lockout starts afresh. */
  lemma ExpiredKeyStartsAfresh(l: Limits, sweeping: Sweeping, log: seq<Event>, k: string, now: real)
    requires l.Sensible() && InOrder(log) && LastTime(log) <= now
    requires match OwnBucket(l, k, log)
             case None => true
             case Some(b) => if b.lockedUntil == 0.0 then now >= b.windowStart + l.window else now >= b.lockedUntil
    ensures var v := Answer(l, sweeping, After(l, sweeping, log), k, now);
            if l.maxAttempts == 0 then v == Rejected(l.lockout)
            else v == Allowed && OwnBucket(l, k, log + [Check(k, now)]) == Some(Bucket(1, now, 0.0))
  {
    assert (log + [Check(k, now)])[..|log|] == log;
    NeverNegative(log);
    AnswerFromOwnHistory(l, sweeping, log, k, now);
  }

  lemma {:induction false} WindowCounts(l: Limits, log: seq<Event>, i: nat, k: string, u: real)
    requires l.Sensible() && i <= |log| && InOrder(log) && NoReset(log, i, k)
    requires OwnBucket(l, k, log[..i]) == Some(Bucket(1, u, 0.0)) && ChecksBefore(log, i, k, u + l.window)
    requires 1 + ChecksOf(log, i, k) <= l.maxAttempts
    ensures OwnBucket(l, k, log) == Some(Bucket(1 + ChecksOf(log, i, k), u, 0.0))
    decreases |log|
  {
    if |log| == i {
      assert log[..i] == log;
    } else {
      var before := log[..|log| - 1];
      assert before[..i] == log[..i];
      assert NoReset(before, i, k);
      WindowCounts(l, before, i, k, u);
      NeverNegative(before);
    }
  }

  /** Waiting the seconds of the header is always enough, and less than one second too long. */
  lemma HeaderSuffices(l: Limits, sweeping: Sweeping, log: seq<Event>, i: nat, k: string, t: real, d: real)
    requires l.Sensible() && l.maxAttempts >= 1
    requires i < |log| && log[i] == Check(k, t) && NoReset(log, i, k) && ChecksBefore(log, i, k, t + d)
    requires Answer(l, sweeping, After(l, sweeping, log[..i]), k, t) == Rejected(d)
    requires InOrder(log) && LastTime(log) <= t + Header(d) as real
    ensures Answer(l, sweeping, After(l, sweeping, log), k, t + Header(d) as real) == Allowed
    ensures d <= Header(d) as real < d + 1.0
  {
    var u := t + Header(d) as real;
    assert (log + [Check(k, u)])[..|log|] == log;
    RetryAfterIsExact(l, sweeping, log, i, k, t, d, u);
  }
}
