/**
 * An "eventually" poll in the style of gomega's Eventually(...).Should(Equal(v)):
 * the callback is polled once immediately, then again each time a polling
 * interval has passed, until it returns the desired value, until an assertion
 * inside the callback fails (which aborts the wait), or until the timeout fires.
 *
 * Real time is replaced by an injected schedule: observe(k) is what the
 * callback returns at the k-th poll (k = 0 is the initial poll), and clock(k)
 * is the time, in seconds since the wait began, at which the k-th poll is taken.
 */
module Polling {
  import opened Wrappers

  /** How a wait ended; `polls` counts the polls taken, and the last of them decided. */
  datatype WaitOutcome<V, E> =
    | Reached(polls: nat)
    | TimedOut(polls: nat, last: V)
    | Failed(polls: nat, failure: E)

  /** Consecutive polls are at least `interval` apart. */
  ghost predicate Paced(clock: nat -> nat, interval: nat)
  {
    forall k: nat :: clock(k) + interval <= clock(k + 1)
  }

  /** Poll k is taken: the initial poll always is, a later one only before the timeout fires. */
  predicate Taken(clock: nat -> nat, timeout: nat, k: nat)
  {
    k == 0 || clock(k) < timeout
  }

  /**
   * The outcome `r` is the one the poll produces: every poll up to the last was
   * taken, every poll before the last returned a value other than `desired`, and
   * the last one returned `desired` (Reached), failed (Failed), or returned another
   * value while the next poll would be too late (TimedOut).
   */
  ghost predicate Describes<V, E>(
    r: WaitOutcome<V, E>, observe: nat -> Result<V, E>, clock: nat -> nat, timeout: nat, desired: V)
  {
    && 1 <= r.polls
    && (forall j: nat :: j < r.polls ==> Taken(clock, timeout, j))
    && (forall j: nat :: j < r.polls - 1 ==> observe(j).Ok? && observe(j).value != desired)
    && match r
       case Reached(n) => observe(n - 1) == Ok(desired)
       case Failed(n, e) => observe(n - 1) == Err(e)
       case TimedOut(n, last) => observe(n - 1) == Ok(last) && last != desired && !Taken(clock, timeout, n)
  }

  /** Some poll taken in time observes `desired`, and no earlier poll failed. */
  ghost predicate ObservedInTime<V, E>(
    observe: nat -> Result<V, E>, clock: nat -> nat, timeout: nat, desired: V)
  {
    exists k: nat :: Taken(clock, timeout, k) && observe(k) == Ok(desired)
      && (forall j: nat :: j < k ==> observe(j).Ok?)
  }

  /** The poll loop. */
  method Eventually<V(==), E>(
    observe: nat -> Result<V, E>, clock: nat -> nat, timeout: nat, interval: nat, desired: V)
    returns (r: WaitOutcome<V, E>)
    requires interval > 0 && Paced(clock, interval)
    ensures Describes(r, observe, clock, timeout, desired)
    ensures r.polls == 1 || (r.polls - 1) * interval < timeout
    ensures r.polls <= timeout / interval + 1
  {
    var k: nat := 0;
    var seen := observe(0);
    while seen.Ok? && seen.value != desired && Taken(clock, timeout, k + 1)
      invariant forall j: nat :: j <= k ==> Taken(clock, timeout, j)
      invariant forall j: nat :: j < k ==> observe(j).Ok? && observe(j).value != desired
      invariant seen == observe(k)
      decreases timeout - clock(k)
    {
      k := k + 1;
      seen := observe(k);
    }
    if seen.Err? {
      r := Failed(k + 1, seen.error);
    } else if seen.value == desired {
      r := Reached(k + 1);
    } else {
      r := TimedOut(k + 1, seen.value);
    }
    PollsWithinBudget(clock, interval, timeout, k + 1);
  }

  /** The k-th poll is at least k intervals after the initial one. */
  lemma {:induction false} SpacedPolls(clock: nat -> nat, interval: nat, k: nat)
    requires Paced(clock, interval)
    ensures clock(0) + k * interval <= clock(k)
  {
    if k > 0 {
      SpacedPolls(clock, interval, k - 1);
      assert clock(k - 1) + interval <= clock(k);
      assert (k - 1) * interval + interval == k * interval;
    }
  }

  /** The clock never runs backwards. */
  lemma {:induction false} ClockMonotone(clock: nat -> nat, interval: nat, i: nat, j: nat)
    requires Paced(clock, interval) && i <= j
    ensures clock(i) <= clock(j)
  {
    if i < j {
      ClockMonotone(clock, interval, i, j - 1);
      assert clock(j - 1) + interval <= clock(j);
    }
  }

  /**
   * If the n-th poll is taken, the polls fit in the timeout: the initial poll
   * plus at most timeout / interval more.
   */
  lemma PollsWithinBudget(clock: nat -> nat, interval: nat, timeout: nat, n: nat)
    requires interval > 0 && Paced(clock, interval)
    requires 1 <= n && Taken(clock, timeout, n - 1)
    ensures n == 1 || (n - 1) * interval < timeout
    ensures n <= timeout / interval + 1
  {
    var k := n - 1;
    if k > 0 {
      SpacedPolls(clock, interval, k);
      assert k * interval < timeout;
      DivBound(k, interval, timeout);
    }
  }

  /** k * d < t implies k <= t / d. */
  lemma DivBound(k: nat, d: nat, t: nat)
    requires d > 0 && k * d < t
    ensures k <= t / d
  {
    var q := t / d;
    assert t == q * d + t % d;
    if q < k {
      assert (q + 1) * d <= k * d by {
        MulLeftMono(q + 1, k, d);
      }
      assert false;
    }
  }

  lemma MulLeftMono(a: nat, b: nat, c: nat)
    requires a <= b
    ensures a * c <= b * c
  {
    assert b * c == a * c + (b - a) * c;
  }

  /** The wait reports Reached exactly when some poll taken in time observes `desired`. */
  lemma ReachedIff<V, E>(
    r: WaitOutcome<V, E>, observe: nat -> Result<V, E>, clock: nat -> nat, timeout: nat, interval: nat, desired: V)
    requires Paced(clock, interval)
    requires Describes(r, observe, clock, timeout, desired)
    ensures r.Reached? <==> ObservedInTime(observe, clock, timeout, desired)
  {
    var n := r.polls;
    if ObservedInTime(observe, clock, timeout, desired) {
      var k: nat :| Taken(clock, timeout, k) && observe(k) == Ok(desired)
        && (forall j: nat :: j < k ==> observe(j).Ok?);
      if n <= k && !r.Failed? {
        ClockMonotone(clock, interval, n, k);
      }
    }
  }

  /** The outcome of a poll is determined by the callback's results and the clock. */
  lemma DescribesUnique<V, E>(
    r1: WaitOutcome<V, E>, r2: WaitOutcome<V, E>,
    observe: nat -> Result<V, E>, clock: nat -> nat, timeout: nat, desired: V)
    requires Describes(r1, observe, clock, timeout, desired)
    requires Describes(r2, observe, clock, timeout, desired)
    ensures r1 == r2
  {
  }
}
