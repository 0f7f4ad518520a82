// The wait between two attempts (event/typed.go), in Go's 64-bit durations.
module Backoff {
  import opened EventTables

  newtype Duration = x: int | -0x8000_0000_0000_0000 <= x < 0x8000_0000_0000_0000

  const HALF: int := 0x4000_0000_0000_0000  // 2^62

  // A policy the start-up check accepts.
  ghost predicate CanWork(p: RetryPolicy) {
    0 < p.firstDelay <= p.maxDelay
  }

  lemma {:induction false} DoubledGrows(first: int, m: nat, n: nat)
    requires 0 < first && m <= n
    ensures 0 < Doubled(first, m) <= Doubled(first, n)
    decreases n
  {
    if m < n {
      DoubledGrows(first, m, n - 1);
    } else if m > 0 {
      DoubledGrows(first, m - 1, n - 1);
    }
  }

  // More failures never shorten the wait, and it stays between the first delay
  // and the longest.
  lemma DelayGrows(p: RetryPolicy, f: int, g: int)
    requires CanWork(p) && f <= g
    ensures p.firstDelay <= Delay(p, f) <= Delay(p, g) <= p.maxDelay
  {
    DoubledGrows(p.firstDelay, 0, if f < 1 then 0 else f - 1);
    DoubledGrows(p.firstDelay, if f < 1 then 0 else f - 1, if g < 1 then 0 else g - 1);
  }

  // The first wait is the first delay; each further failure doubles the wait, up to the
  // longest.
  lemma DelayDoubles(p: RetryPolicy, failures: int)
    requires CanWork(p)
    ensures failures <= 1 ==> Delay(p, failures) == p.firstDelay
    ensures failures >= 1 ==> Delay(p, failures + 1) == if 2 * Delay(p, failures) < p.maxDelay then 2 * Delay(p, failures) else p.maxDelay
  {
    if failures >= 1 {
      DoubledGrows(p.firstDelay, failures - 1, failures);
    }
  }

  // The doubling loop. Every product it forms is a Duration: nothing overflows.
  method DelayAfter(firstDelay: Duration, maxDelay: Duration, failures: int) returns (d: Duration)
    requires 0 < firstDelay <= maxDelay && maxDelay as int <= HALF
    ensures d as int == Delay(RetryPolicy(1, firstDelay as int, maxDelay as int), failures)
  {
    d := firstDelay;
    var i := 1;
    while i < failures && d < maxDelay
      invariant 1 <= i && (i <= failures || i == 1)
      invariant 0 < d && d as int == Doubled(firstDelay as int, i - 1)
      decreases failures - i
    {
      d := d * 2;
      i := i + 1;
    }
    if i < failures {
      DoubledGrows(firstDelay as int, i - 1, failures - 1);
    }
    if maxDelay < d {
      d := maxDelay;
    }
  }

  // 2^62 ns is exactly how long the longest wait may be for no policy with it to
  // overflow: above it, one that starts at 2^62 ns doubles past the type.
  lemma NoOverflowIff(longest: int)
    requires 0 < longest < 2 * HALF
    ensures longest <= HALF <==>
            forall first, n: nat :: 0 < first <= longest && Doubled(first, n) < longest ==> 2 * Doubled(first, n) < 2 * HALF
  {
    if longest > HALF {
      assert Doubled(HALF, 0) == HALF;
    }
  }

  // One such policy: it starts at 2^62 ns and may wait one longer. After its second
  // failure the loop doubles, and the product is no Duration.
  lemma DoublingOverflows()
    ensures var p := RetryPolicy(2, HALF, HALF + 1);
            CanWork(p) && p.maxDelay < 2 * HALF && Doubled(p.firstDelay, 0) < p.maxDelay && !(2 * Doubled(p.firstDelay, 0) < 2 * HALF)
  {
    assert Doubled(HALF, 0) == HALF;
  }
}
