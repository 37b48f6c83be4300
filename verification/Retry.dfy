/** Bounded retries: the attempt loop, its backoff in 64-bit nanoseconds, and the arithmetic that
    keeps the backoff meaningful. */
module Retry {
  import opened Common

  const MAX_BACKOFF_SHIFT := 20
  const DEFAULT_BASE_DELAY := 100_000_000

  // Durations are signed 64-bit nanoseconds.
  datatype Config = Config(maxAttempts: int, baseDelay: int, maxDelay: int)

  predicate Int64(x: int) {
    -MAX_INT64 - 1 <= x <= MAX_INT64
  }

  predicate IsDuration(c: Config) {
    Int64(c.baseDelay) && Int64(c.maxDelay)
  }

  function Pow2(n: nat): (r: nat)
    ensures r > 0
  {
    if n == 0 then 1 else 2 * Pow2(n - 1)
  }

  function MinInt(a: int, b: int): int { if a <= b then a else b }

  function Base(c: Config): int {
    if c.baseDelay <= 0 then DEFAULT_BASE_DELAY else c.baseDelay
  }

  function ShiftOf(attempt: int): nat
    requires attempt >= 1
  {
    if attempt - 1 > MAX_BACKOFF_SHIFT then MAX_BACKOFF_SHIFT else attempt - 1
  }

  // The exponential delay meant, before any cap.
  function Meant(c: Config, attempt: int): int
    requires attempt >= 1
  {
    Base(c) * Pow2(ShiftOf(attempt))
  }

  // The delay computed, before jitter: the product wraps around.
  function Computed(c: Config, attempt: int): int
    requires attempt >= 1
  {
    var delay := Wrap64(Meant(c, attempt));
    if c.maxDelay > 0 && delay > c.maxDelay then c.maxDelay else delay
  }

  // The random draw panics on a bound that is not positive.
  datatype Delay = Wait(ns: int) | Panics

  function RandomBelow(bound: int, draw: nat): (r: Delay)
    ensures r.Wait? <==> bound > 0
    ensures r.Wait? ==> 0 <= r.ns < bound && (draw < bound ==> r.ns == draw)
  {
    if bound <= 0 then Panics else Wait(if draw < bound then draw else draw % bound)
  }

  function BackoffDelay(c: Config, attempt: int, draw: nat): Delay
    requires attempt >= 1
  {
    var delay := Computed(c, attempt);
    if delay <= 0 then Wait(0) else RandomBelow(Wrap64(delay + 1), draw)
  }

  // ---------- backoff arithmetic ----------

  lemma {:induction false} Pow2Monotone(a: nat, b: nat)
    requires a <= b
    ensures Pow2(a) <= Pow2(b)
    decreases b
  {
    if a < b {
      Pow2Monotone(a, b - 1);
    }
  }

  lemma {:induction false} Pow2Twenty()
    ensures Pow2(20) == 0x10_0000
  {
    assert Pow2(5) == 32;
    assert Pow2(10) == 1024;
    assert Pow2(15) == 0x8000;
  }

  lemma {:induction false} ProductMonotone(a: nat, x: nat, y: nat)
    requires x <= y
    ensures a * x <= a * y
  {
  }

  // No attempt overflows if and only if the base delay is below 2^43 nanoseconds.
  lemma {:induction false} NoOverflowIff(c: Config)
    requires c.baseDelay > 0
    ensures (forall attempt: int | attempt >= 1 :: Meant(c, attempt) <= MAX_INT64) <==> c.baseDelay < 0x800_0000_0000
  {
    Pow2Twenty();
    if c.baseDelay < 0x800_0000_0000 {
      forall attempt: int | attempt >= 1 ensures Meant(c, attempt) <= MAX_INT64 {
        Pow2Monotone(ShiftOf(attempt), 20);
        ProductMonotone(c.baseDelay, Pow2(ShiftOf(attempt)), Pow2(20));
      }
    } else {
      assert Meant(c, 21) > MAX_INT64;
    }
  }

  // The upper bound of the delay before jitter: the base delay, or 100 milliseconds when none is set,
  // doubled once per attempt after the first but at most twenty times, and cut at the cap if there is one.
  function Bound(c: Config, attempt: int): int
    requires attempt >= 1
  {
    var base := if c.baseDelay <= 0 then 100_000_000 else c.baseDelay;
    var delay := base * Pow2(if attempt <= 21 then attempt - 1 else 20);
    if c.maxDelay > 0 then MinInt(delay, c.maxDelay) else delay
  }

  lemma {:induction false} ComputedExact(c: Config, attempt: int)
    requires IsDuration(c) && c.baseDelay < 0x800_0000_0000 && attempt >= 1
    ensures Computed(c, attempt) == Bound(c, attempt)
    ensures 0 < Computed(c, attempt) < MAX_INT64
  {
    BelowMax(c, attempt);
    ProductMonotone(Base(c), 1, Pow2(ShiftOf(attempt)));
  }

  // With a base delay below 2^43 nanoseconds every delay lies between zero and that bound, and every such
  // delay can be drawn.
  lemma {:induction false} DelayExact(c: Config, attempt: int, draw: nat)
    requires IsDuration(c) && c.baseDelay < 0x800_0000_0000 && attempt >= 1
    ensures BackoffDelay(c, attempt, draw).Wait?
    ensures 0 <= BackoffDelay(c, attempt, draw).ns <= Bound(c, attempt)
    ensures draw <= Bound(c, attempt) ==> BackoffDelay(c, attempt, draw).ns == draw
  {
    ComputedExact(c, attempt);
  }

  lemma {:induction false} BelowMax(c: Config, attempt: int)
    requires c.baseDelay < 0x800_0000_0000 && attempt >= 1
    ensures 0 < Meant(c, attempt) < MAX_INT64
  {
    Pow2Twenty();
    Pow2Monotone(ShiftOf(attempt), 20);
    ProductMonotone(Base(c), 1, Pow2(ShiftOf(attempt)));
    ProductMonotone(Base(c), Pow2(ShiftOf(attempt)), Pow2(20));
  }

  lemma {:induction false} WrapKeepsParity(x: int)
    ensures Wrap64(x) % 2 == x % 2
  {
    var y := x + MAX_INT64 + 1;
    assert y == TWO_64 * (y / TWO_64) + y % TWO_64;
    assert TWO_64 * (y / TWO_64) == 2 * (0x8000_0000_0000_0000 * (y / TWO_64));
  }

  lemma {:induction false} PanicsAtMax(c: Config, attempt: int, draw: nat)
    requires IsDuration(c) && attempt >= 1
    ensures BackoffDelay(c, attempt, draw) == Panics <==> Computed(c, attempt) == MAX_INT64
  {
    var delay := Computed(c, attempt);
    assert Int64(delay) && Wrap64(MAX_INT64 + 1) == -MAX_INT64 - 1;
    assert 0 < delay < MAX_INT64 ==> Wrap64(delay + 1) == delay + 1;
  }

  // Only an odd product wraps around to the largest duration, and after the first attempt it is even.
  lemma {:induction false} LargestIff(c: Config, attempt: int)
    requires IsDuration(c) && attempt >= 1
    ensures Wrap64(Meant(c, attempt)) == MAX_INT64 <==> attempt == 1 && c.baseDelay == MAX_INT64
  {
    if attempt == 1 {
      assert Pow2(0) == 1 && Meant(c, attempt) == Base(c);
    } else {
      MeantIsEven(c, attempt);
      WrapKeepsParity(Meant(c, attempt));
      assert MAX_INT64 % 2 == 1;
    }
  }

  lemma {:induction false} MeantIsEven(c: Config, attempt: int)
    requires attempt >= 2
    ensures Meant(c, attempt) % 2 == 0
  {
    Twice(Base(c), Pow2(ShiftOf(attempt) - 1));
  }

  lemma {:induction false} Twice(a: int, b: int)
    ensures a * (2 * b) % 2 == 0
  {
    assert a * (2 * b) == 2 * (a * b);
  }

  // The draw panics in exactly one configuration: the largest base delay, uncapped, at the first
  // retry.
  lemma {:induction false} PanicsIff(c: Config, attempt: int, draw: nat)
    requires IsDuration(c) && attempt >= 1
    ensures BackoffDelay(c, attempt, draw) == Panics <==>
            attempt == 1 && c.baseDelay == MAX_INT64 && (c.maxDelay <= 0 || c.maxDelay == MAX_INT64)
  {
    PanicsAtMax(c, attempt, draw);
    LargestIff(c, attempt);
  }

  // ---------- the attempt loop ----------

  // What happens at one attempt: whether the context is done before the call or while waiting
  // after it, how the call ends, and whether its error may be retried.
  datatype Attempt = Attempt(doneBefore: bool, result: Outcome, retryable: bool, doneWaiting: bool)

  predicate GoesOn(a: Attempt) {
    !a.doneBefore && a.result.Failed? && a.retryable && !a.doneWaiting
  }

  function Attempts(c: Config): nat {
    if c.maxAttempts < 1 then 1 else c.maxAttempts
  }

  // The result when attempt n, counted from zero, is the one that ends the loop.
  function Ends(a: Attempt, last: bool): Outcome {
    if a.doneBefore then Failed(Interrupted)
    else if a.result == Done then Done
    else if !a.retryable || last then a.result
    else Failed(Interrupted)
  }

  // The first attempt after which the loop does not go on.
  predicate Final(script: seq<Attempt>, max: nat, n: nat)
    requires |script| >= max
  {
    n < max && (forall i | 0 <= i < n :: GoesOn(script[i])) && (n == max - 1 || !GoesOn(script[n]))
  }

  predicate WaitsBounded(c: Config, waits: seq<int>) {
    forall i | 0 <= i < |waits| :: 0 <= waits[i] && (waits[i] == 0 || waits[i] <= Computed(c, i + 1))
  }

  // fn runs at most max(1, MaxAttempts) times, the last attempt decides the result, and each wait
  // is bounded by the delay computed for it.
  method Retry(c: Config, script: seq<Attempt>, draws: seq<nat>)
    returns (r: Outcome, panicked: bool, calls: nat, waits: seq<int>)
    requires IsDuration(c) && |script| >= Attempts(c) && |draws| >= Attempts(c)
    ensures var max := if c.maxAttempts < 1 then 1 else c.maxAttempts;
            calls <= max && |waits| < max && WaitsBounded(c, waits)
    ensures forall i | 0 <= i < calls - 1 ::
              script[i].result.Failed? && script[i].retryable && !script[i].doneBefore && !script[i].doneWaiting
    ensures panicked ==> calls == 1 && c.baseDelay == MAX_INT64 && (c.maxDelay <= 0 || c.maxDelay == MAX_INT64)
    ensures !panicked ==>
              var max := if c.maxAttempts < 1 then 1 else c.maxAttempts;
              exists n: nat ::
                && Final(script, max, n) && r == Ends(script[n], n == max - 1)
                && calls == (if script[n].doneBefore then n else n + 1)
  {
    var max := Attempts(c);
    r, panicked, calls, waits := Done, false, 0, [];
    while true
      invariant calls == |waits| < max && !panicked
      invariant forall j | 0 <= j < calls :: GoesOn(script[j])
      invariant WaitsBounded(c, waits)
      decreases max - calls
    {
      var a := script[calls];
      if a.doneBefore {
        assert Final(script, max, calls);
        return Failed(Interrupted), false, calls, waits;
      }
      if a.result == Done || !a.retryable || calls + 1 == max {
        assert Final(script, max, calls);
        return a.result, false, calls + 1, waits;
      }
      var delay := BackoffDelay(c, calls + 1, draws[calls]);
      if delay == Panics {
        PanicsIff(c, calls + 1, draws[calls]);
        return Failed(Interrupted), true, calls + 1, waits;
      }
      if a.doneWaiting {
        assert Final(script, max, calls);
        return Failed(Interrupted), false, calls + 1, waits;
      }
      waits := waits + [delay.ns];
      calls := calls + 1;
    }
  }

  // A failure is an interruption exactly when the context was done, before the last attempt reached or
  // while waiting for another; every other failure is the function's own last error.
  lemma {:induction false} InterruptedIff(script: seq<Attempt>, max: nat, n: nat)
    requires |script| >= max && Final(script, max, n)
    requires forall i | 0 <= i < |script| :: script[i].result != Failed(Interrupted)
    ensures Ends(script[n], n == max - 1) == Failed(Interrupted) <==>
            script[n].doneBefore || (script[n].result.Failed? && script[n].retryable && n < max - 1)
    ensures Ends(script[n], n == max - 1) == Failed(Interrupted) ==> script[n].doneBefore || script[n].doneWaiting
    ensures Ends(script[n], n == max - 1) != Failed(Interrupted) ==>
              Ends(script[n], n == max - 1) == script[n].result
  {
  }

  // Success is reported exactly when some attempt that was reached succeeded.
  lemma {:induction false} DoneIffReached(script: seq<Attempt>, max: nat, n: nat)
    requires |script| >= max && Final(script, max, n)
    ensures Ends(script[n], n == max - 1) == Done <==>
            exists k: nat :: k < max && (forall i | 0 <= i < k :: GoesOn(script[i])) && !script[k].doneBefore
                && script[k].result == Done
  {
    if k: nat :|
      k < max && (forall i | 0 <= i < k :: GoesOn(script[i])) && !script[k].doneBefore && script[k].result == Done {
      assert !GoesOn(script[k]);
      assert k == n;
    }
  }
}
