/**
 The rate limiter of services/users/app/rate_limit.py on values. Times are real
 numbers of seconds. The source reads the clock before it takes the lock; here the
 times of successive checks are assumed not to decrease (InOrder).
 */
module RateLimit {
  import opened Common

  datatype Limits = Limits(maxAttempts: nat, window: real, lockout: real) {
    predicate Sensible() {
      window > 0.0 && lockout > 0.0
    }
  }

  type SampleSize = n: nat | n > 0 witness 1

  /** Stale buckets are swept on every sampleSize-th check; Never is a limiter that keeps all of them. */
  datatype Sweeping = Every(sampleSize: SampleSize) | Never

  /** lockedUntil is 0.0 when the key is not locked out. */
  datatype Bucket = Bucket(count: nat, windowStart: real, lockedUntil: real)

  datatype Table = Table(buckets: map<string, Bucket>, checks: nat)

  datatype Verdict = Allowed | Rejected(retryAfter: real)

  datatype Event = Check(key: string, now: real) | Reset(key: string) | ResetAll

  function NewBucket(now: real): Bucket {
    Bucket(0, now, 0.0)
  }

  /** One attempt against an existing bucket. */
  function Attempt(l: Limits, b: Bucket, now: real): (Bucket, Verdict) {
    if b.lockedUntil > now then
      (b, Rejected(b.lockedUntil - now))
    else
      var b' := if b.lockedUntil != 0.0 then Bucket(0, now, 0.0)
                else if now - b.windowStart >= l.window then b.(windowStart := now, count := 0)
                else b;
      if b'.count + 1 > l.maxAttempts then
        (Bucket(b'.count + 1, b'.windowStart, now + l.lockout), Rejected(l.lockout))
      else
        (b'.(count := b'.count + 1), Allowed)
  }

  predicate Stale(l: Limits, b: Bucket, now: real) {
    b.lockedUntil <= now && b.windowStart < now - l.window * 2.0
  }

  predicate SweepDue(sweeping: Sweeping, checks: nat) {
    sweeping.Every? && checks % sweeping.sampleSize == 0
  }

  /** _evict_stale */
  function EvictStale(l: Limits, sweeping: Sweeping, t: Table, now: real): Table {
    var checks := t.checks + 1;
    Table(if SweepDue(sweeping, checks) then WithoutStale(l, t.buckets, now) else t.buckets, checks)
  }

  function WithoutStale(l: Limits, buckets: map<string, Bucket>, now: real): map<string, Bucket> {
    map k | k in buckets && !Stale(l, buckets[k], now) :: buckets[k]
  }

  function Lookup(t: Table, k: string): Option<Bucket> {
    if k in t.buckets then Some(t.buckets[k]) else None
  }

  /** An attempt on a bucket that is created if it is missing. */
  function AttemptOn(l: Limits, b: Option<Bucket>, now: real): (Bucket, Verdict) {
    Attempt(l, if b.Some? then b.value else NewBucket(now), now)
  }

  /** The table after one call. */
  function Step(l: Limits, sweeping: Sweeping, t: Table, e: Event): Table {
    match e
    case Check(key, now) =>
      var t' := EvictStale(l, sweeping, t, now);
      t'.(buckets := t'.buckets[key := AttemptOn(l, Lookup(t', key), now).0])
    case Reset(key) => t.(buckets := t.buckets - {key})
    case ResetAll => t.(buckets := map[])
  }

  /** What check answers in table t. */
  function Answer(l: Limits, sweeping: Sweeping, t: Table, key: string, now: real): Verdict {
    AttemptOn(l, Lookup(EvictStale(l, sweeping, t, now), key), now).1
  }

  const EMPTY_TABLE: Table := Table(map[], 0)

  /** The table after all the calls in log, in order, on a new limiter. */
  function After(l: Limits, sweeping: Sweeping, log: seq<Event>): Table {
    if log == [] then EMPTY_TABLE
    else Step(l, sweeping, After(l, sweeping, log[..|log| - 1]), log[|log| - 1])
  }

  /** The time of the last check. */
  function LastTime(log: seq<Event>): real {
    if log == [] then 0.0
    else var e := log[|log| - 1]; if e.Check? then e.now else LastTime(log[..|log| - 1])
  }

  /** The clock starts at zero or later and never goes back from one check to the next. */
  predicate InOrder(log: seq<Event>) {
    log == [] ||
    var before, e := log[..|log| - 1], log[|log| - 1];
    InOrder(before) && (e.Check? ==> e.now >= LastTime(before))
  }

  predicate Concerns(e: Event, k: string) {
    match e
    case Check(key, _) => key == k
    case Reset(key) => key == k
    case ResetAll => true
  }

  /** The calls that name k or every key. */
  function Restrict(log: seq<Event>, k: string): seq<Event> {
    if log == [] then []
    else
      var e := log[|log| - 1];
      Restrict(log[..|log| - 1], k) + (if Concerns(e, k) then [e] else [])
  }

  /** The bucket k would have if nothing were ever swept, from the calls that concern k alone. */
  function OwnBucket(l: Limits, k: string, log: seq<Event>): Option<Bucket> {
    if log == [] then None
    else
      var b, e := OwnBucket(l, k, log[..|log| - 1]), log[|log| - 1];
      if !Concerns(e, k) then b
      else if e.Check? then Some(AttemptOn(l, b, e.now).0)
      else None
  }
}
