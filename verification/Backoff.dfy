/**
 * The reconnect delay of the connection manager: exact waits, their totals and
 * the machine-integer condition under which they are exact. A time.Duration is
 * an int64 count of nanoseconds, so the doubling is written with its wrap-around.
 */
module Backoff {

  const INT64_LIMIT: int := 0x8000_0000_0000_0000
  const HALF_LIMIT: int := 0x4000_0000_0000_0000

  predicate Int64(x: int) {
    -INT64_LIMIT <= x < INT64_LIMIT
  }

  type Nanos = x: int | -INT64_LIMIT <= x < INT64_LIMIT

  /** The positive durations that NewClient leaves in the configuration. */
  predicate Duration(d: int) {
    0 < d < INT64_LIMIT
  }

  function Min(a: int, b: int): int {
    if a < b then a else b
  }

  /** d*2 in int64 arithmetic. */
  function Double(d: int): (r: int)
    requires Int64(d)
    ensures Int64(r)
    ensures r == 2 * d || r == 2 * d - 2 * INT64_LIMIT || r == 2 * d + 2 * INT64_LIMIT
  {
    if 2 * d < -INT64_LIMIT then 2 * d + 2 * INT64_LIMIT
    else if 2 * d < INT64_LIMIT then 2 * d
    else 2 * d - 2 * INT64_LIMIT
  }

  /** One expiry of the retry timer: min(delay*2, max). */
  function NextDelay(delay: int, max: int): (next: int)
    requires Int64(delay) && Duration(max)
    ensures Int64(next) && next <= max
  {
    Min(Double(delay), max)
  }

  /** The k-th wait (from 0) of a run of dial failures, as the loop computes it. */
  function Delay(start: int, max: int, k: nat): (d: int)
    requires Duration(start) && Duration(max)
    ensures Int64(d)
  {
    if k == 0 then start else NextDelay(Delay(start, max, k - 1), max)
  }

  /** start * 2^k, over the unbounded integers. */
  function Doubled(start: int, k: nat): (d: int)
    requires 0 < start
    ensures start <= d && k < d
  {
    if k == 0 then start else 2 * Doubled(start, k - 1)
  }

  function Pow2(k: nat): (p: nat) {
    if k == 0 then 1 else 2 * Pow2(k - 1)
  }

  lemma {:induction false} DoubledIsPower(start: int, k: nat)
    requires 0 < start
    ensures Doubled(start, k) == start * Pow2(k)
  {
    if k > 0 {
      DoubledIsPower(start, k - 1);
    }
  }

  /** Capped exponential backoff, the intended k-th wait. */
  function Capped(start: int, max: int, k: nat): int
    requires 0 < start
  {
    if k == 0 then start else Min(Doubled(start, k), max)
  }

  predicate SafeDurations(start: int, max: int) {
    start < HALF_LIMIT && max < HALF_LIMIT
  }

  lemma {:induction false} DelayIsCapped(start: int, max: int, k: nat)
    requires Duration(start) && Duration(max) && SafeDurations(start, max)
    ensures Delay(start, max, k) == Capped(start, max, k)
    ensures 0 < Delay(start, max, k) < HALF_LIMIT
  {
    if k > 0 {
      DelayIsCapped(start, max, k - 1);
    }
  }

  /** With a cap of at least 2^62 some delay reaches 2^62; all delays before it are as intended. */
  lemma {:induction false} ReachesHalf(start: int, max: int, k: nat) returns (n: nat)
    requires Duration(start) && Duration(max) && HALF_LIMIT <= max
    requires Delay(start, max, k) == Capped(start, max, k)
    ensures Delay(start, max, n) == Capped(start, max, n) >= HALF_LIMIT
    decreases HALF_LIMIT - Doubled(start, k)
  {
    if Delay(start, max, k) >= HALF_LIMIT {
      n := k;
    } else {
      n := ReachesHalf(start, max, k + 1);
    }
  }

  /** The loop computes capped exponential backoff exactly when both durations are below 2^62. */
  lemma DelayExactIff(start: int, max: int)
    requires Duration(start) && Duration(max)
    ensures (forall k: nat :: Delay(start, max, k) == Capped(start, max, k)) <==> SafeDurations(start, max)
  {
    if SafeDurations(start, max) {
      forall k: nat
        ensures Delay(start, max, k) == Capped(start, max, k)
      {
        DelayIsCapped(start, max, k);
      }
    } else {
      var n: nat := 0;
      if start < HALF_LIMIT {
        n := ReachesHalf(start, max, 0);
      }
      assert Delay(start, max, n) >= HALF_LIMIT;
      assert Delay(start, max, n + 1) < 0 < Capped(start, max, n + 1);
    }
  }

  /** With a first wait of 2^62 nanoseconds the second one is negative, hence no wait at all. */
  lemma DelayCanWrap()
    ensures Delay(HALF_LIMIT, HALF_LIMIT, 1) == -INT64_LIMIT
  {
    assert Delay(HALF_LIMIT, HALF_LIMIT, 0) == HALF_LIMIT;
  }

  /** The first n waits. */
  function Delays(start: int, max: int, n: nat): (waits: seq<int>)
    requires Duration(start) && Duration(max)
    ensures |waits| == n
  {
    if n == 0 then [] else Delays(start, max, n - 1) + [Delay(start, max, n - 1)]
  }

  /** Total of the first n waits. */
  function TotalWait(start: int, max: int, n: nat): int
    requires Duration(start) && Duration(max)
  {
    if n == 0 then 0 else TotalWait(start, max, n - 1) + Delay(start, max, n - 1)
  }

  /** `cap` is the least number of doublings that reaches the maximum. */
  predicate CapReachedAt(start: int, max: int, cap: nat)
    requires 0 < start
  {
    max <= Doubled(start, cap) && (cap == 0 || Doubled(start, cap - 1) < max)
  }

  /** There is exactly one such number. */
  lemma CapExists(start: int, max: int)
    requires 0 < start
    ensures exists cap: nat :: CapReachedAt(start, max, cap)
    ensures forall a: nat, b: nat :: CapReachedAt(start, max, a) && CapReachedAt(start, max, b) ==> a == b
  {
    var cap := FindCap(start, max, 0);
    forall a: nat, b: nat | CapReachedAt(start, max, a) && CapReachedAt(start, max, b)
      ensures a == b
    {
      if a < b {
        DoublingGrows(start, a, b - 1);
      } else if b < a {
        DoublingGrows(start, b, a - 1);
      }
    }
  }

  lemma {:induction false} FindCap(start: int, max: int, k: nat) returns (cap: nat)
    requires 0 < start && (k == 0 || Doubled(start, k - 1) < max)
    ensures CapReachedAt(start, max, cap)
    decreases max - Doubled(start, k)
  {
    if max <= Doubled(start, k) {
      cap := k;
    } else {
      cap := FindCap(start, max, k + 1);
    }
  }

  lemma {:induction false} DoublingGrows(start: int, j: nat, k: nat)
    requires 0 < start && j <= k
    ensures Doubled(start, j) <= Doubled(start, k)
  {
    if j < k {
      DoublingGrows(start, j, k - 1);
    }
  }

  lemma {:induction false} TotalUpToCap(start: int, max: int, cap: nat, n: nat)
    requires Duration(start) && Duration(max) && SafeDurations(start, max)
    requires CapReachedAt(start, max, cap) && n <= cap
    ensures TotalWait(start, max, n) == Doubled(start, n) - start
  {
    if n > 0 {
      TotalUpToCap(start, max, cap, n - 1);
      DelayIsCapped(start, max, n - 1);
      DoublingGrows(start, n - 1, cap - 1);
    }
  }

  lemma CappedDelay(start: int, max: int, cap: nat, k: nat)
    requires Duration(start) && Duration(max) && SafeDurations(start, max)
    requires start <= max && CapReachedAt(start, max, cap) && cap <= k
    ensures Delay(start, max, k) == max
  {
    DelayIsCapped(start, max, k);
    DoublingGrows(start, cap, k);
  }

  /** Closed form of the total: geometric up to the cap, linear beyond it. */
  lemma {:induction false} TotalWaitClosedForm(start: int, max: int, cap: nat, n: nat)
    requires Duration(start) && Duration(max) && SafeDurations(start, max)
    requires start <= max && CapReachedAt(start, max, cap)
    ensures TotalWait(start, max, n)
         == if n <= cap then Doubled(start, n) - start else Doubled(start, cap) - start + (n - cap) * max
  {
    if n <= cap {
      TotalUpToCap(start, max, cap, n);
    } else {
      TotalWaitClosedForm(start, max, cap, n - 1);
      CappedDelay(start, max, cap, n - 1);
      OneMore(n - 1 - cap, max);
    }
  }

  /** With a first wait above the maximum every later wait is the maximum. */
  lemma {:induction false} TotalWaitAboveMax(start: int, max: int, n: nat)
    requires Duration(start) && Duration(max) && SafeDurations(start, max)
    requires max < start && 0 < n
    ensures TotalWait(start, max, n) == start + (n - 1) * max
  {
    DelayIsCapped(start, max, n - 1);
    if n > 1 {
      TotalWaitAboveMax(start, max, n - 1);
      OneMore(n - 2, max);
    }
  }

  /** The same total with powers of two, as a function of the two durations. */
  lemma TotalWaitByPowers(start: int, max: int, cap: nat, n: nat)
    requires Duration(start) && Duration(max) && SafeDurations(start, max)
    requires start <= max && CapReachedAt(start, max, cap)
    ensures TotalWait(start, max, n)
         == if n <= cap then start * (Pow2(n) - 1) else start * (Pow2(cap) - 1) + (n - cap) * max
  {
    TotalWaitClosedForm(start, max, cap, n);
    DoubledIsPower(start, n);
    DoubledIsPower(start, cap);
  }

  /** An outage whose completed waits total at most `outage` saw at most cap + 1 + outage/max attempts. */
  lemma OutageBound(start: int, max: int, cap: nat, n: nat, outage: nat)
    requires Duration(start) && Duration(max) && SafeDurations(start, max)
    requires start <= max && CapReachedAt(start, max, cap)
    requires TotalWait(start, max, n) <= outage
    ensures n + 1 <= cap + 1 + outage / max
  {
    if n > cap {
      TotalWaitClosedForm(start, max, cap, n);
      Quotient(n - cap, max, outage);
    } else {
      Quotient(0, max, outage);
    }
  }

  lemma OneMore(q: int, d: int)
    ensures (q + 1) * d == q * d + d
  {
  }

  lemma Quotient(q: nat, d: int, x: nat)
    requires 0 < d && q * d <= x
    ensures q <= x / d
  {
    var whole, rest := x / d, x % d;
    if whole < q {
      calc {
        x;
        whole * d + rest;
      < whole * d + d;
        { OneMore(whole, d); }
        (whole + 1) * d;
      <= { Scale(whole + 1, q, d); }
        q * d;
      }
      assert false;
    }
  }

  lemma Scale(a: int, b: int, d: int)
    requires a <= b && 0 < d
    ensures a * d <= b * d
  {
  }

  /**
   * The retry part of the manager loop, run against a script of dial outcomes:
   * it records the wait after every failure and stops at the first success,
   * where the delay is reset.
   */
  method RetryDial(start: int, max: int, outcomes: seq<bool>)
    returns (waits: seq<int>, reconnectDelay: int, connected: bool)
    requires Duration(start) && Duration(max)
    ensures |waits| <= |outcomes|
    ensures waits == Delays(start, max, |waits|)
    ensures forall k :: 0 <= k < |waits| ==> !outcomes[k]
    ensures if connected then |waits| < |outcomes| && outcomes[|waits|] && reconnectDelay == start
            else |waits| == |outcomes| && reconnectDelay == Delay(start, max, |waits|)
  {
    reconnectDelay := start;
    waits := [];
    connected := false;
    while |waits| < |outcomes|
      invariant |waits| <= |outcomes| && !connected
      invariant reconnectDelay == Delay(start, max, |waits|)
      invariant waits == Delays(start, max, |waits|)
      invariant forall k :: 0 <= k < |waits| ==> !outcomes[k]
    {
      if outcomes[|waits|] {
        reconnectDelay := start;
        connected := true;
        return;
      }
      waits := waits + [reconnectDelay];
      reconnectDelay := NextDelay(reconnectDelay, max);
    }
  }
}
