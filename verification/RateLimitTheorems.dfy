/** What the rate limiter promises over every run. */
module RateLimitTheorems {
  import opened Common
  import opened RateLimit

  // ----- sweeping is invisible, keys do not interfere -----

  /** A bucket that the next attempt will start afresh. */
  predicate Expired(l: Limits, b: Bucket, now: real) {
    b.lockedUntil <= now && (b.lockedUntil != 0.0 || now - b.windowStart >= l.window)
  }

  /** A stored bucket is the key's own one, or that one has expired and was swept. */
  predicate Agrees(l: Limits, stored: Option<Bucket>, own: Option<Bucket>, now: real) {
    stored == own || (stored.None? && own.Some? && Expired(l, own.value, now))
  }

  lemma AgreeingBucketsAnswerAlike(l: Limits, stored: Option<Bucket>, own: Option<Bucket>, before: real, now: real)
    requires Agrees(l, stored, own, before) && 0.0 <= before <= now
    ensures AttemptOn(l, stored, now) == AttemptOn(l, own, now)
  {
  }

  lemma EvictKeepsAgreement(l: Limits, sweeping: Sweeping, t: Table, own: Option<Bucket>, k: string,
                            before: real, now: real)
    requires l.window >= 0.0 && before <= now && Agrees(l, Lookup(t, k), own, before)
    ensures Agrees(l, Lookup(EvictStale(l, sweeping, t, now), k), own, now)
  {
  }

  lemma {:induction false} StoredAgreesWithOwn(l: Limits, sweeping: Sweeping, log: seq<Event>, k: string)
    requires l.window >= 0.0 && InOrder(log)
    ensures LastTime(log) >= 0.0
    ensures Agrees(l, Lookup(After(l, sweeping, log), k), OwnBucket(l, k, log), LastTime(log))
    decreases |log|
  {
    if log != [] {
      var before, e := log[..|log| - 1], log[|log| - 1];
      StoredAgreesWithOwn(l, sweeping, before, k);
      if e.Check? {
        var t, own := After(l, sweeping, before), OwnBucket(l, k, before);
        EvictKeepsAgreement(l, sweeping, t, own, k, LastTime(before), e.now);
        AgreeingBucketsAnswerAlike(l, Lookup(EvictStale(l, sweeping, t, e.now), k), own, e.now, e.now);
      }
    }
  }

  /** Every verdict is decided by the calls that concern the key, whatever is swept. */
  lemma AnswerFromOwnHistory(l: Limits, sweeping: Sweeping, log: seq<Event>, k: string, now: real)
    requires l.window >= 0.0 && InOrder(log) && now >= LastTime(log)
    ensures Answer(l, sweeping, After(l, sweeping, log), k, now) == AttemptOn(l, OwnBucket(l, k, log), now).1
  {
    StoredAgreesWithOwn(l, sweeping, log, k);
    var t, own := After(l, sweeping, log), OwnBucket(l, k, log);
    EvictKeepsAgreement(l, sweeping, t, own, k, LastTime(log), now);
    AgreeingBucketsAnswerAlike(l, Lookup(EvictStale(l, sweeping, t, now), k), own, now, now);
  }

  /** The answers to all checks of a run, None for a reset. */
  function Answers(l: Limits, sweeping: Sweeping, log: seq<Event>): seq<Option<Verdict>> {
    if log == [] then []
    else
      var before, e := log[..|log| - 1], log[|log| - 1];
      Answers(l, sweeping, before)
      + [if e.Check? then Some(Answer(l, sweeping, After(l, sweeping, before), e.key, e.now)) else None]
  }

  /** Eviction cannot be observed: all sample sizes, and never sweeping, give the same answers. */
  lemma {:induction false} EvictionIsInvisible(l: Limits, s: Sweeping, s': Sweeping, log: seq<Event>)
    requires l.window >= 0.0 && InOrder(log)
    ensures Answers(l, s, log) == Answers(l, s', log)
    decreases |log|
  {
    if log != [] {
      var before, e := log[..|log| - 1], log[|log| - 1];
      EvictionIsInvisible(l, s, s', before);
      if e.Check? {
        AnswerFromOwnHistory(l, s, before, e.key, e.now);
        AnswerFromOwnHistory(l, s', before, e.key, e.now);
      }
    }
  }

  /** The answers to the checks of k. */
  function AnswersTo(k: string, l: Limits, sweeping: Sweeping, log: seq<Event>): seq<Verdict> {
    if log == [] then []
    else
      var before, e := log[..|log| - 1], log[|log| - 1];
      AnswersTo(k, l, sweeping, before)
      + (if e.Check? && e.key == k then [Answer(l, sweeping, After(l, sweeping, before), k, e.now)] else [])
  }

  lemma {:induction false} RestrictKeepsOwn(l: Limits, log: seq<Event>, k: string)
    requires InOrder(log)
    ensures InOrder(Restrict(log, k)) && LastTime(Restrict(log, k)) <= LastTime(log)
    ensures OwnBucket(l, k, Restrict(log, k)) == OwnBucket(l, k, log)
    decreases |log|
  {
    if log != [] {
      var before, e := log[..|log| - 1], log[|log| - 1];
      RestrictKeepsOwn(l, before, k);
      var r := Restrict(log, k);
      if Concerns(e, k) {
        assert r[..|r| - 1] == Restrict(before, k) && r[|r| - 1] == e;
      } else {
        assert r == Restrict(before, k);
      }
      if e.Check? {
        NeverNegative(before);
      }
    }
  }

  lemma {:induction false} NeverNegative(log: seq<Event>)
    requires InOrder(log)
    ensures LastTime(log) >= 0.0
    decreases |log|
  {
    if log != [] {
      NeverNegative(log[..|log| - 1]);
    }
  }

  /** The traffic of other keys changes no answer to k, though it triggers the sweeps. */
  lemma {:induction false} KeysDoNotInterfere(l: Limits, sweeping: Sweeping, log: seq<Event>, k: string)
    requires l.window >= 0.0 && InOrder(log)
    ensures AnswersTo(k, l, sweeping, log) == AnswersTo(k, l, sweeping, Restrict(log, k))
    decreases |log|
  {
    if log != [] {
      var before, e := log[..|log| - 1], log[|log| - 1];
      KeysDoNotInterfere(l, sweeping, before, k);
      RestrictKeepsOwn(l, before, k);
      var r := Restrict(log, k);
      if Concerns(e, k) {
        assert r[..|r| - 1] == Restrict(before, k) && r[|r| - 1] == e;
        if e.Check? {
          AnswerFromOwnHistory(l, sweeping, before, k, e.now);
          AnswerFromOwnHistory(l, sweeping, Restrict(before, k), k, e.now);
        }
      } else {
        assert r == Restrict(before, k);
      }
    }
  }

  // ----- buckets and the size of the table -----

  /** Holds of every bucket at any time after its last attempt. */
  predicate BucketOk(l: Limits, b: Bucket, now: real) {
    && 0.0 <= b.windowStart <= now
    && b.count <= l.maxAttempts + 1
    && (b.count > l.maxAttempts <==> b.lockedUntil != 0.0)
    && (b.lockedUntil != 0.0 ==>
          b.windowStart + l.lockout <= b.lockedUntil < b.windowStart + l.window + l.lockout)
  }

  lemma AttemptKeepsBucketOk(l: Limits, b: Option<Bucket>, now: real)
    requires l.Sensible() && now >= 0.0 && (b.Some? ==> BucketOk(l, b.value, now))
    ensures BucketOk(l, AttemptOn(l, b, now).0, now)
  {
  }

  lemma {:induction false} BucketsAreOk(l: Limits, sweeping: Sweeping, log: seq<Event>, k: string)
    requires l.Sensible() && InOrder(log)
    ensures LastTime(log) >= 0.0
    ensures OwnBucket(l, k, log).Some? ==> BucketOk(l, OwnBucket(l, k, log).value, LastTime(log))
    ensures k in After(l, sweeping, log).buckets ==> BucketOk(l, After(l, sweeping, log).buckets[k], LastTime(log))
    decreases |log|
  {
    if log != [] {
      var before, e := log[..|log| - 1], log[|log| - 1];
      BucketsAreOk(l, sweeping, before, k);
      if e.Check? && e.key == k {
        AttemptKeepsBucketOk(l, OwnBucket(l, k, before), e.now);
        var t := EvictStale(l, sweeping, After(l, sweeping, before), e.now);
        AttemptKeepsBucketOk(l, Lookup(t, k), e.now);
      }
    }
  }

  function Checks(log: seq<Event>): nat {
    if log == [] then 0 else Checks(log[..|log| - 1]) + if log[|log| - 1].Check? then 1 else 0
  }

  /** The keys checked since the last sweep, by the check that swept or a later one. */
  function Touched(log: seq<Event>, n: SampleSize): set<string> {
    if log == [] then {}
    else
      var before, e := log[..|log| - 1], log[|log| - 1];
      if !e.Check? then Touched(before, n)
      else (if Checks(log) % n == 0 then {} else Touched(before, n)) + {e.key}
  }

  /** When the last sweep took place. */
  function LastSweep(log: seq<Event>, n: SampleSize): Option<real> {
    if log == [] then None
    else
      var before, e := log[..|log| - 1], log[|log| - 1];
      if e.Check? && Checks(log) % n == 0 then Some(e.now) else LastSweep(before, n)
  }

  lemma {:induction false} ChecksAreCounted(l: Limits, sweeping: Sweeping, log: seq<Event>)
    ensures After(l, sweeping, log).checks == Checks(log)
    decreases |log|
  {
    if log != [] {
      ChecksAreCounted(l, sweeping, log[..|log| - 1]);
    }
  }

  lemma {:induction false} TouchedIsSmall(log: seq<Event>, n: SampleSize)
    ensures |Touched(log, n)| <= Checks(log) % n + 1 <= n
    ensures Checks(log) < n ==> |Touched(log, n)| <= Checks(log)
    decreases |log|
  {
    if log != [] {
      var before := log[..|log| - 1];
      TouchedIsSmall(before, n);
      if log[|log| - 1].Check? {
        NextRemainder(Checks(before), n);
      }
    }
  }

  lemma NextRemainder(c: nat, n: SampleSize)
    ensures (c + 1) % n == if c % n + 1 == n then 0 else c % n + 1
  {
    var q, r := c / n, c % n;
    var d, e := (c + 1) / n, (c + 1) % n;
    assert q * n + r + 1 == d * n + e;
    assert (d - q) * n == r + 1 - e;
    Multiple(d - q, n);
  }

  lemma Multiple(x: int, n: SampleSize)
    ensures x >= 1 ==> x * n >= n
    ensures x >= 2 ==> x * n >= 2 * n
    ensures x <= -1 ==> x * n + n <= 0
  {
  }

  function Max(x: real, y: real): real {
    if x >= y then x else y
  }

  /**
   The table stays small: a stored key was checked since the last sweep, and there are
   at most sampleSize such keys, or its window opened at most max(2 * window, window +
   lockout) before that sweep.
   */
  lemma StoredKeysAreRecent(l: Limits, n: SampleSize, log: seq<Event>, k: string)
    requires l.Sensible() && InOrder(log) && k in After(l, Every(n), log).buckets
    ensures |Touched(log, n)| <= n
    ensures k in Touched(log, n) ||
            (LastSweep(log, n).Some? &&
             After(l, Every(n), log).buckets[k].windowStart
               >= LastSweep(log, n).value - Max(2.0 * l.window, l.window + l.lockout))
  {
    TouchedIsSmall(log, n);
    if k !in Touched(log, n) {
      UntouchedSurvivedSweep(l, n, log, k);
    }
  }

  lemma {:induction false} UntouchedSurvivedSweep(l: Limits, n: SampleSize, log: seq<Event>, k: string)
    requires l.Sensible() && InOrder(log)
    requires k in After(l, Every(n), log).buckets && k !in Touched(log, n)
    ensures LastSweep(log, n).Some?
    ensures After(l, Every(n), log).buckets[k].windowStart
              >= LastSweep(log, n).value - Max(2.0 * l.window, l.window + l.lockout)
    decreases |log|
  {
    if log != [] {
      var before, e := log[..|log| - 1], log[|log| - 1];
      ChecksAreCounted(l, Every(n), before);
      if e.Check? && Checks(log) % n == 0 {
        assert !Stale(l, After(l, Every(n), before).buckets[k], e.now);
        BucketsAreOk(l, Every(n), before, k);
      } else {
        UntouchedSurvivedSweep(l, n, before, k);
      }
    }
  }

  /**
   A sweep takes exactly the buckets that are not locked and whose window opened more than
   two windows ago; any other check takes none.
   */
  lemma SweepTakesExactly(l: Limits, n: SampleSize, log: seq<Event>, key: string, now: real, k: string)
    requires k != key
    ensures var before, after := After(l, Every(n), log).buckets, After(l, Every(n), log + [Check(key, now)]).buckets;
            && (k in after ==> k in before && after[k] == before[k])
            && (k in before ==>
                  (k !in after <==>
                     (Checks(log) + 1) % n == 0
                     && before[k].lockedUntil <= now && now - before[k].windowStart > l.window + l.window))
  {
    assert (log + [Check(key, now)])[..|log|] == log;
    ChecksAreCounted(l, Every(n), log);
  }
}
