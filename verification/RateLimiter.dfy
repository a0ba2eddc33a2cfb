/** services/users/app/rate_limit.py as classes; each method is proved against the model in RateLimit. */
module RateLimiter {
  import opened Common
  import M = RateLimit
  import T = RateLimitTheorems

  class Bucket {
    var count: nat
    var windowStart: real
    var lockedUntil: real

    constructor (windowStart: real)
      ensures State() == M.NewBucket(windowStart)
    {
      count := 0;
      this.windowStart := windowStart;
      lockedUntil := 0.0;
    }

    function State(): M.Bucket
      reads this
    {
      M.Bucket(count, windowStart, lockedUntil)
    }

    /** The part of check that works on one bucket. */
    method Attempt(l: M.Limits, now: real) returns (v: M.Verdict)
      modifies this
      ensures (State(), v) == M.Attempt(l, old(State()), now)
    {
      if lockedUntil > now {
        return M.Rejected(lockedUntil - now);
      }
      if lockedUntil != 0.0 {
        lockedUntil := 0.0;
        windowStart := now;
        count := 0;
      } else if now - windowStart >= l.window {
        windowStart := now;
        count := 0;
      }
      count := count + 1;
      if count > l.maxAttempts {
        lockedUntil := now + l.lockout;
        return M.Rejected(l.lockout);
      }
      v := M.Allowed;
    }
  }

  lemma Overwrite<K, V>(m: map<K, V>, k: K, v: V, w: V)
    ensures m[k := v][k := w] == m[k := w]
  {
  }

  lemma AfterOneMore(l: M.Limits, sweeping: M.Sweeping, log: seq<M.Event>, e: M.Event)
    ensures M.After(l, sweeping, log + [e]) == M.Step(l, sweeping, M.After(l, sweeping, log), e)
  {
    assert (log + [e])[..|log|] == log;
  }

  class RateLimiter {
    const limits: M.Limits
    const sampleSize: M.SampleSize
    var buckets: map<string, Bucket>
    var evictionCounter: nat
    /** The calls so far, in the order in which they got the lock. */
    ghost var log: seq<M.Event>

    /** No two keys share a bucket. */
    ghost predicate Valid()
      reads this
    {
      forall j, k :: j in buckets && k in buckets && buckets[j] == buckets[k] ==> j == k
    }

    ghost function View(): M.Table
      reads this, buckets.Values
    {
      M.Table(map k | k in buckets :: buckets[k].State(), evictionCounter)
    }

    /** The table is the one the run model has after the same calls: its theorems are about this object. */
    ghost predicate FollowsLog()
      reads this, buckets.Values
    {
      View() == M.After(limits, M.Every(sampleSize), log)
    }

    constructor (limits: M.Limits, sampleSize: M.SampleSize)
      ensures Valid() && View() == M.EMPTY_TABLE && fresh(buckets.Values)
      ensures log == [] && FollowsLog()
      ensures this.limits == limits && this.sampleSize == sampleSize
    {
      this.limits := limits;
      this.sampleSize := sampleSize;
      buckets := map[];
      evictionCounter := 0;
      log := [];
    }

    /** The list of stale keys, and the loop deleting them. */
    method DiscardStale(now: real)
      requires Valid()
      modifies `buckets
      ensures Valid() && buckets.Values <= old(buckets.Values)
      ensures forall k :: k in buckets <==> k in old(buckets) && !M.Stale(limits, old(buckets)[k].State(), now)
      ensures forall k :: k in buckets ==> buckets[k] == old(buckets)[k]
      ensures View().buckets == M.WithoutStale(limits, old(View()).buckets, now)
      ensures View().checks == old(View()).checks
    {
      var staleBefore := now - limits.window * 2.0;
      var stale := set k | k in buckets && buckets[k].lockedUntil <= now && buckets[k].windowStart < staleBefore;
      var rest := stale;
      while rest != {}
        invariant rest <= stale && buckets == old(buckets) - (stale - rest)
        decreases rest
      {
        var k :| k in rest;
        assert k in buckets;
        buckets := buckets - {k};
        rest := rest - {k};
      }
    }

    method EvictStale(now: real)
      requires Valid()
      modifies `buckets, `evictionCounter
      ensures Valid() && buckets.Values <= old(buckets.Values)
      ensures View() == M.EvictStale(limits, M.Every(sampleSize), old(View()), now)
    {
      evictionCounter := evictionCounter + 1;
      assert View() == old(View()).(checks := evictionCounter);
      if evictionCounter % sampleSize != 0 {
        return;
      }
      DiscardStale(now);
    }

    method Check(key: string, now: real) returns (v: M.Verdict)
      requires Valid()
      modifies this, buckets.Values
      ensures Valid() && fresh(buckets.Values - old(buckets.Values))
      ensures v == M.Answer(limits, M.Every(sampleSize), old(View()), key, now)
      ensures View() == M.Step(limits, M.Every(sampleSize), old(View()), M.Check(key, now))
      ensures log == old(log) + [M.Check(key, now)] && (old(FollowsLog()) ==> FollowsLog())
    {
      v := CheckTable(key, now);
      AfterOneMore(limits, M.Every(sampleSize), log, M.Check(key, now));
      log := log + [M.Check(key, now)];
    }

    method CheckTable(key: string, now: real) returns (v: M.Verdict)
      requires Valid()
      modifies `buckets, `evictionCounter, buckets.Values
      ensures Valid() && fresh(buckets.Values - old(buckets.Values))
      ensures v == M.Answer(limits, M.Every(sampleSize), old(View()), key, now)
      ensures View() == M.Step(limits, M.Every(sampleSize), old(View()), M.Check(key, now))
    {
      EvictStale(now);
      v := CheckBucket(key, now);
    }

    /**
     check on a limiter that has only been called through its methods, at times that do not
     decrease: the verdict is decided by the calls so far that concern the key.
     */
    method CheckInOrder(key: string, now: real) returns (v: M.Verdict)
      requires Valid() && FollowsLog() && limits.window >= 0.0 && M.InOrder(log) && now >= M.LastTime(log)
      modifies this, buckets.Values
      ensures Valid() && FollowsLog() && fresh(buckets.Values - old(buckets.Values))
      ensures log == old(log) + [M.Check(key, now)] && M.InOrder(log)
      ensures v == M.AttemptOn(limits, M.OwnBucket(limits, key, old(log)), now).1
      ensures forall u ::
                M.OwnBucket(limits, key, old(log)) == Some(M.Bucket(limits.maxAttempts, u, 0.0))
                && now < u + limits.window ==>
                v == M.Rejected(limits.lockout)
      ensures forall c, u, d :: M.OwnBucket(limits, key, old(log)) == Some(M.Bucket(c, u, d)) && now < d ==>
                v == M.Rejected(d - now)
    {
      T.NeverNegative(log);
      T.AnswerFromOwnHistory(limits, M.Every(sampleSize), log, key, now);
      v := Check(key, now);
      assert log[..|log| - 1] == old(log);
    }

    /** check after the eviction. */
    method CheckBucket(key: string, now: real) returns (v: M.Verdict)
      requires Valid()
      modifies `buckets, buckets.Values
      ensures Valid() && fresh(buckets.Values - old(buckets.Values))
      ensures v == M.AttemptOn(limits, M.Lookup(old(View()), key), now).1
      ensures View() == old(View()).(
                          buckets := old(View()).buckets[key := M.AttemptOn(limits, M.Lookup(old(View()), key), now).0])
    {
      ghost var before := View();
      var bucket := GetOrAdd(key, now);
      ghost var b := bucket.State();
      assert M.Attempt(limits, b, now) == M.AttemptOn(limits, M.Lookup(before, key), now);
      v := AttemptIn(key, bucket, now);
      Overwrite(before.buckets, key, b, M.Attempt(limits, b, now).0);
    }

    method AttemptIn(key: string, bucket: Bucket, now: real) returns (v: M.Verdict)
      requires Valid() && key in buckets && buckets[key] == bucket
      modifies bucket
      ensures Valid() && v == M.Attempt(limits, old(bucket.State()), now).1
      ensures View() == old(View()).(
                          buckets := old(View()).buckets[key := M.Attempt(limits, old(bucket.State()), now).0])
    {
      v := bucket.Attempt(limits, now);
      assert View().buckets == old(View()).buckets[key := bucket.State()];
    }

    /** The bucket of the key, a new one if there is none. */
    method GetOrAdd(key: string, now: real) returns (bucket: Bucket)
      requires Valid()
      modifies `buckets
      ensures Valid() && buckets.Values <= old(buckets.Values) + {bucket}
      ensures bucket in old(buckets.Values) || fresh(bucket)
      ensures key in buckets && buckets[key] == bucket
      ensures View() == old(View()).(buckets := old(View()).buckets[key := bucket.State()])
      ensures bucket.State() == if key in old(View()).buckets then old(View()).buckets[key] else M.NewBucket(now)
    {
      if key in buckets {
        bucket := buckets[key];
      } else {
        bucket := new Bucket(now);
        buckets := buckets[key := bucket];
      }
    }

    method Reset(key: string)
      requires Valid()
      modifies this
      ensures Valid() && buckets.Values <= old(buckets.Values)
      ensures View() == M.Step(limits, M.Every(sampleSize), old(View()), M.Reset(key))
      ensures log == old(log) + [M.Reset(key)] && (old(FollowsLog()) ==> FollowsLog())
    {
      buckets := buckets - {key};
      AfterOneMore(limits, M.Every(sampleSize), log, M.Reset(key));
      log := log + [M.Reset(key)];
    }

    method ResetAll()
      modifies this
      ensures Valid() && buckets.Values == {}
      ensures View() == M.Step(limits, M.Every(sampleSize), old(View()), M.ResetAll)
      ensures log == old(log) + [M.ResetAll] && (old(FollowsLog()) ==> FollowsLog())
    {
      buckets := map[];
      AfterOneMore(limits, M.Every(sampleSize), log, M.ResetAll);
      log := log + [M.ResetAll];
    }
  }
}
