/** How long _acquire_advisory_lock of services/users/app/migrations.py polls. */
module AdvisoryLock {
  import opened Rounding

  /** clock(i) is what time.monotonic() returns after the i-th attempt has failed. */
  datatype Polling = Polling(timeout: real, retry: real, start: real, clock: nat -> real) {
    /** Each sleep takes at least the retry interval. */
    ghost predicate Sane() {
      && timeout >= 0.0 && retry > 0.0 && clock(0) >= start
      && forall i: nat :: clock(i) + retry <= clock(i + 1)
    }

    function Deadline(): real {
      start + timeout
    }

    /** After each of the attempts 0, ..., n - 1 the deadline is still ahead. */
    ghost predicate KeepsWaiting(n: nat) {
      forall j: nat :: j < n ==> clock(j) < Deadline()
    }
  }

  lemma {:induction false} ClockAdvances(p: Polling, i: nat)
    requires p.Sane()
    ensures p.clock(i) >= p.start + i as real * p.retry
  {
    if i > 0 {
      ClockAdvances(p, i - 1);
      assert p.clock(i - 1) + p.retry <= p.clock(i - 1 + 1);
      assert i as real * p.retry == (i - 1) as real * p.retry + p.retry;
    }
  }

  function MaxAttempts(p: Polling): int
    requires p.retry > 0.0
  {
    Ceil(p.timeout / p.retry) + 1
  }

  /** Failing n times before the deadline takes less than the timeout. */
  lemma WaitingIsBounded(p: Polling, n: nat)
    requires p.Sane() && p.KeepsWaiting(n)
    ensures n + 1 <= MaxAttempts(p)
  {
    if n > 0 {
      ClockAdvances(p, n - 1);
      assert p.clock(n - 1) < p.Deadline();
      assert (n - 1) as real * p.retry < p.timeout;
      Quotient((n - 1) as real, p.timeout, p.retry);
    } else {
      Quotient(-1.0, p.timeout, p.retry);
    }
  }

  lemma Quotient(x: real, d: real, m: real)
    requires m > 0.0 && x * m < d
    ensures x < d / m
  {
    assert (d / m - x) * m == d - x * m;
    SignOfProduct(d / m - x, m);
  }

  /** The bound is met if every sleep takes just the retry interval and the last attempt ends the wait. */
  lemma BoundIsTight(p: Polling, attempts: nat)
    requires p.Sane() && attempts >= 1
    requires forall i: nat :: p.clock(i) == p.start + i as real * p.retry
    requires p.KeepsWaiting(attempts - 1) && p.clock(attempts - 1) >= p.Deadline()
    ensures attempts == MaxAttempts(p)
  {
    WaitingIsBounded(p, attempts - 1);
    assert p.clock(attempts - 1) == p.start + (attempts - 1) as real * p.retry;
    QuotientAtMost((attempts - 1) as real, p.timeout, p.retry);
  }

  lemma QuotientAtMost(x: real, d: real, m: real)
    requires m > 0.0 && x * m >= d
    ensures d / m <= x
  {
    assert (x - d / m) * m == x * m - d;
    SignOfProduct(x - d / m, m);
  }
}
