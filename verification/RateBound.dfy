/** How many attempts get through, and what retry_after means. */
module RateBound {
  import opened Common
  import opened Rounding
  import opened RateLimit
  import opened RateLimitTheorems

  // ----- epochs -----

  /** How many epochs of length m, started at its beginning, reach into a span of length d. */
  function Epochs(d: real, m: real): nat
    requires m > 0.0
  {
    if d <= 0.0 then 0
    else
      DivSign(d, m);
      Ceil(d / m)
  }

  lemma EpochsMonotone(x: real, y: real, m: real)
    requires m > 0.0 && x <= y
    ensures Epochs(x, m) <= Epochs(y, m)
  {
    DivLess(x, y, m);
  }

  lemma EpochsStep(d: real, m: real)
    requires m > 0.0 && d > 0.0
    ensures Epochs(d, m) == 1 + Epochs(d - m, m)
  {
    DivOneLess(d, m);
    if d <= m {
      DivLess(d, m, m);
    }
  }

  // ----- the bound -----

  /** No call from position i on resets k. */
  predicate NoReset(log: seq<Event>, i: nat, k: string) {
    forall j :: i <= j < |log| ==> log[j] != Reset(k) && log[j] != ResetAll
  }

  /** The checks of k from position i on with a time in [a, b) that are let through. */
  function Admitted(l: Limits, sweeping: Sweeping, log: seq<Event>, i: nat, k: string, a: real, b: real): nat {
    if |log| <= i then 0
    else
      var before, e := log[..|log| - 1], log[|log| - 1];
      Admitted(l, sweeping, before, i, k, a, b)
      + if e.Check? && e.key == k && a <= e.now < b
           && Answer(l, sweeping, After(l, sweeping, before), k, e.now).Allowed? then 1 else 0
  }

  /** Between the starts of two windows of one key at least this much time passes. */
  function Spacing(l: Limits): real {
    if l.window <= l.lockout then l.window else l.lockout
  }

  /** Attempts the current window still admits. */
  function Left(l: Limits, b: Option<Bucket>): nat {
    if b.Some? && b.value.lockedUntil == 0.0 && b.value.count <= l.maxAttempts then l.maxAttempts - b.value.count else 0
  }

  /** The earliest start, from time a on, of another window. */
  function NextStart(l: Limits, b: Option<Bucket>, a: real): real {
    if b.Some? && b.value.windowStart + Spacing(l) >= a then b.value.windowStart + Spacing(l) else a
  }

  /** What can still be admitted in [a, end). */
  function Potential(l: Limits, b: Option<Bucket>, a: real, end: real): nat
    requires l.Sensible()
  {
    Left(l, b) + l.maxAttempts * Epochs(end - NextStart(l, b, a), Spacing(l))
  }

  function Bound(l: Limits, span: real): nat
    requires l.Sensible()
  {
    l.maxAttempts * (1 + Epochs(span, Spacing(l)))
  }

  /** In a span of length d the bound is maxAttempts * (1 + c) with c the rounded-up number of spacings in it. */
  lemma BoundMeans(l: Limits, d: real, c: nat)
    requires l.Sensible() && d > 0.0
    requires var m := if l.window <= l.lockout then l.window else l.lockout; d / m <= c as real < d / m + 1.0
    ensures Bound(l, d) == l.maxAttempts * (1 + c)
  {
  }

  lemma Scale(x: nat, y: nat, n: nat)
    requires x <= y
    ensures n * x <= n * y && n * (1 + y) == n + n * y
  {
  }

  lemma PotentialWithinBound(l: Limits, b: Option<Bucket>, a: real, end: real)
    requires l.Sensible()
    ensures Potential(l, b, a, end) <= Bound(l, end - a)
  {
    EpochsMonotone(end - NextStart(l, b, a), end - a, Spacing(l));
    Scale(Epochs(end - NextStart(l, b, a), Spacing(l)), Epochs(end - a, Spacing(l)), l.maxAttempts);
  }

  /** Does an attempt on b start a window, rather than continue or refuse one? */
  predicate StartsWindow(l: Limits, b: Option<Bucket>, now: real) {
    b.None? || Expired(l, b.value, now)
  }

  /** Admitting an attempt inside [a, end) costs potential. */
  lemma AttemptPaysPotential(l: Limits, b: Option<Bucket>, now: real, a: real, end: real)
    requires l.Sensible() && 0.0 <= now && a <= now < end && (b.Some? ==> BucketOk(l, b.value, now))
    ensures var (b', v) := AttemptOn(l, b, now);
            Potential(l, Some(b'), a, end) + (if v.Allowed? then 1 else 0) <= Potential(l, b, a, end)
  {
    if StartsWindow(l, b, now) {
      var m := Spacing(l);
      var b' := AttemptOn(l, b, now).0;
      assert NextStart(l, Some(b'), a) == now + m;
      EpochsStep(end - now, m);
      assert end - now - m == end - (now + m);
      EpochsMonotone(end - now, end - NextStart(l, b, a), m);
      Scale(Epochs(end - now, m), Epochs(end - NextStart(l, b, a), m), l.maxAttempts);
      Scale(0, Epochs(end - (now + m), m), l.maxAttempts);
    }
  }

  /** At most maxAttempts * (1 + ceil((end - a) / min(window, lockout))) checks of a key pass in [a, end). */
  lemma AdmittedIsBounded(l: Limits, sweeping: Sweeping, log: seq<Event>, i: nat, k: string, a: real, end: real)
    requires l.Sensible() && InOrder(log) && NoReset(log, i, k)
    ensures Admitted(l, sweeping, log, i, k, a, end) <= Bound(l, end - a)
  {
    AdmittedWithPotential(l, sweeping, log, i, k, a, end);
  }

  lemma {:induction false} AdmittedWithPotential(l: Limits, sweeping: Sweeping, log: seq<Event>, i: nat, k: string,
                                                a: real, end: real)
    requires l.Sensible() && InOrder(log) && NoReset(log, i, k)
    ensures var n := Admitted(l, sweeping, log, i, k, a, end);
            && n <= Bound(l, end - a)
            && (LastTime(log) < a ==> n == 0)
            && (LastTime(log) < end ==> n + Potential(l, OwnBucket(l, k, log), a, end) <= Bound(l, end - a))
    decreases |log|
  {
    if |log| <= i {
      PotentialWithinBound(l, OwnBucket(l, k, log), a, end);
    } else {
      var before, e := log[..|log| - 1], log[|log| - 1];
      assert NoReset(before, i, k);
      AdmittedWithPotential(l, sweeping, before, i, k, a, end);
      if e.Check? && e.key == k {
        AnswerFromOwnHistory(l, sweeping, before, k, e.now);
        BucketsAreOk(l, sweeping, before, k);
        if a <= e.now < end {
          AttemptPaysPotential(l, OwnBucket(l, k, before), e.now, a, end);
        } else {
          PotentialWithinBound(l, OwnBucket(l, k, log), a, end);
        }
      } else if e.Check? {
        PotentialWithinBound(l, OwnBucket(l, k, log), a, end);
      }
    }
  }

  /** With a lockout no shorter than the window, at most twice the budget passes in a span no longer than the window. */
  lemma TwiceTheBudget(l: Limits, sweeping: Sweeping, log: seq<Event>, i: nat, k: string, a: real, end: real)
    requires l.Sensible() && InOrder(log) && NoReset(log, i, k)
    requires l.lockout >= l.window && end - a <= l.window
    ensures Admitted(l, sweeping, log, i, k, a, end) <= 2 * l.maxAttempts
  {
    AdmittedIsBounded(l, sweeping, log, i, k, a, end);
    EpochsMonotone(end - a, l.window, l.window);
    EpochsStep(l.window, l.window);
    Scale(Epochs(end - a, l.window), 1, l.maxAttempts);
  }
}
