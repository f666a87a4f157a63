/** The retry backoff of the runner lifecycle (nextRetryAt).

    `Delay` is the closed form the configuration documents: the base delay
    doubled once per earlier attempt, capped. `DoublingLoop` is the loop that
    computes it, on wrapping 64-bit nanoseconds as Go's time.Duration is. */
module Backoff {
  import opened Common

  const TWO_63: int := 0x8000_0000_0000_0000
  const TWO_62: int := 0x4000_0000_0000_0000

  function Pow2(n: nat): (p: int)
    ensures p >= 1
  {
    if n == 0 then 1 else 2 * Pow2(n - 1)
  }

  /** The number of doublings attempt `n` has behind it. */
  function Doublings(n: int): nat {
    if n <= 1 then 0 else n - 1
  }

  /** The base after `i` doublings. */
  function Scaled(base: int, i: nat): int {
    base * Pow2(i)
  }

  lemma ScaledOnceMore(base: int, i: nat)
    ensures Scaled(base, i + 1) == 2 * Scaled(base, i)
    ensures Scaled(base, 0) == base && Scaled(base, 1) == 2 * base
    ensures Scaled(-base, i) == -Scaled(base, i)
  {
  }

  function Delay(base: int, cap: int, n: int): int {
    Min(Scaled(base, Doublings(n)), cap)
  }

  /** Two's-complement wrap-around of a 64-bit signed integer. */
  function Wrap64(x: int): int {
    (x + TWO_63) % (2 * TWO_63) - TWO_63
  }

  predicate FitsInt64(x: int) {
    -TWO_63 <= x < TWO_63
  }

  /** Doubling once more never shortens the delay. */
  lemma {:induction false} ScaledGrows(base: int, i: nat, j: nat)
    requires 0 <= base && i <= j
    ensures 0 <= Scaled(base, i) <= Scaled(base, j)
  {
    if i < j {
      ScaledGrows(base, i, j - 1);
      ScaledOnceMore(base, j - 1);
    }
  }

  lemma DelayIsMonotone(base: int, cap: int, n: int, m: int)
    requires 0 <= base && n <= m
    ensures Delay(base, cap, n) <= Delay(base, cap, m)
  {
    ScaledGrows(base, Doublings(n), Doublings(m));
  }

  // ---- When the loop is exact -----------------------------------------------------------

  /** Doubling `k` no longer fits, and no doubling before it reached the cap. */
  ghost predicate OverflowsAt(base: int, cap: int, n: int, k: nat) {
    1 <= k < n && !FitsInt64(Scaled(base, k)) && forall j: nat :: 1 <= j < k ==> Scaled(base, j) < cap
  }

  ghost predicate Overflows(base: int, cap: int, n: int) {
    exists k: nat :: OverflowsAt(base, cap, n, k)
  }

  ghost predicate ReachesCap(base: int, cap: int, n: int) {
    exists j: nat :: 1 <= j < n && Scaled(base, j) >= cap
  }

  /** What the loop yields on unbounded integers. */
  ghost function Looped(base: int, cap: int, n: int): int {
    if ReachesCap(base, cap, n) then cap else Min(Scaled(base, Doublings(n)), cap)
  }

  /** For a base that is not negative that is the closed form. */
  lemma LoopedIsDelay(base: int, cap: int, n: int)
    requires 0 <= base
    ensures Looped(base, cap, n) == Delay(base, cap, n)
  {
    if ReachesCap(base, cap, n) {
      var j: nat :| 1 <= j < n && Scaled(base, j) >= cap;
      ScaledGrows(base, j, Doublings(n));
    }
  }

  /** For a negative base, whose doublings sink, exactly when the cap is never met
      or the last doubling still meets it. */
  lemma LoopedOfNegative(base: int, cap: int, n: int)
    requires base < 0
    ensures Looped(base, cap, n) == Delay(base, cap, n) <==> n <= 1 || 2 * base < cap || Scaled(base, n - 1) >= cap
  {
    if n > 1 {
      ScaledOnceMore(base, 0);
      forall j: nat | 1 <= j < n ensures Scaled(base, n - 1) <= Scaled(base, j) <= 2 * base {
        ScaledGrows(-base, 1, j);
        ScaledGrows(-base, j, n - 1);
        ScaledOnceMore(base, j);
        ScaledOnceMore(base, n - 1);
        ScaledOnceMore(base, 1);
      }
    }
  }

  /** For a cap of at most 2^62 the loop is exact exactly when no doubling is
      needed or the base is below 2^62, however large 2^(n-1) is. */
  lemma ExactBelow62Bits(base: int, cap: int, n: int)
    requires 0 <= base && cap <= TWO_62
    ensures Overflows(base, cap, n) <==> n > 1 && base >= TWO_62
  {
    ScaledOnceMore(base, 0);
    if n > 1 && base >= TWO_62 { assert OverflowsAt(base, cap, n, 1); }
    forall k: nat | OverflowsAt(base, cap, n, k) ensures base >= TWO_62 {
      ScaledGrows(base, 0, k);
      ScaledOnceMore(base, k - 1);
    }
  }

  // ---- The loop on 64-bit integers ------------------------------------------------------

  /** A doubling, as the loop sees it, reaches the cap. */
  ghost predicate WrapsToCap(base: int, cap: int, n: int) {
    exists j: nat :: 1 <= j < n && Wrap64(Scaled(base, j)) >= cap
  }

  /** What the loop yields on wrapping integers. */
  ghost function WrappedDelay(base: int, cap: int, n: int): int {
    if WrapsToCap(base, cap, n) then cap else Min(Wrap64(Scaled(base, Doublings(n))), cap)
  }

  lemma WrapOnceMore(x: int)
    ensures Wrap64(2 * Wrap64(x)) == Wrap64(2 * x)
  {
    var k := (x + TWO_63) / (2 * TWO_63);
    assert Wrap64(x) == x - k * (2 * TWO_63);
    WrapPeriod(2 * x, -2 * k);
  }

  lemma {:induction false} WrapPeriod(x: int, k: int)
    ensures Wrap64(x + k * (2 * TWO_63)) == Wrap64(x)
    decreases if k < 0 then -k else k
  {
    if k > 0 { WrapPeriod(x + 2 * TWO_63, k - 1); }
    if k < 0 { WrapPeriod(x - 2 * TWO_63, k + 1); }
  }

  lemma {:induction false} FirstToReach(base: int, cap: int, j: nat) returns (first: nat)
    requires 1 <= j && Scaled(base, j) >= cap
    ensures 1 <= first <= j && Scaled(base, first) >= cap && forall i: nat :: 1 <= i < first ==> Scaled(base, i) < cap
  {
    first := j;
    if i: nat :| 1 <= i < j && Scaled(base, i) >= cap { first := FirstToReach(base, cap, i); }
  }

  lemma FittingStays(x: int)
    requires FitsInt64(x)
    ensures Wrap64(x) == x
  {
  }

  /** Without an overflow wrapping changes nothing. */
  lemma NothingWraps(base: int, cap: int, n: int)
    requires FitsInt64(base) && !Overflows(base, cap, n)
    ensures WrappedDelay(base, cap, n) == Looped(base, cap, n)
  {
    if ReachesCap(base, cap, n) { CapIsSeen(base, cap, n); } else { AllFit(base, cap, n); }
  }

  lemma CapIsSeen(base: int, cap: int, n: int)
    requires !Overflows(base, cap, n) && ReachesCap(base, cap, n)
    ensures WrapsToCap(base, cap, n)
  {
    var j: nat :| 1 <= j < n && Scaled(base, j) >= cap;
    var first := FirstToReach(base, cap, j);
    assert !OverflowsAt(base, cap, n, first);
    FittingStays(Scaled(base, first));
  }

  lemma AllFit(base: int, cap: int, n: int)
    requires FitsInt64(base) && !Overflows(base, cap, n) && !ReachesCap(base, cap, n)
    ensures !WrapsToCap(base, cap, n) && Wrap64(Scaled(base, Doublings(n))) == Scaled(base, Doublings(n))
  {
    forall k: nat | 1 <= k < n ensures Scaled(base, k) < cap && Wrap64(Scaled(base, k)) == Scaled(base, k) {
      assert !OverflowsAt(base, cap, n, k);
      FittingStays(Scaled(base, k));
    }
    ScaledOnceMore(base, 0);
    FittingStays(base);
  }

  /** For a base that is not negative the loop yields the documented delay exactly
      when nothing overflows or a wrapped doubling happens to reach the cap. */
  lemma WrappedIsDelay(base: int, cap: int, n: int)
    requires FitsInt64(base) && FitsInt64(cap) && 0 <= base
    ensures WrappedDelay(base, cap, n) == Delay(base, cap, n) <==> !Overflows(base, cap, n) || WrapsToCap(base, cap, n)
  {
    if !Overflows(base, cap, n) {
      NothingWraps(base, cap, n);
      LoopedIsDelay(base, cap, n);
    } else {
      var k: nat :| OverflowsAt(base, cap, n, k);
      ScaledGrows(base, 0, k);
      ScaledGrows(base, k, Doublings(n));
    }
  }

  /** The first doubling of a base of 2^62 or more puts the retry into the past. */
  lemma HugeBaseGoesBack(base: int, cap: int)
    requires TWO_62 <= base && FitsInt64(base) && 0 <= cap
    ensures WrappedDelay(base, cap, 2) < 0
  {
    ScaledOnceMore(base, 0);
    assert Wrap64(Scaled(base, 1)) < 0;
  }

  /** The delay loop, for every base and cap a time.Duration can hold. */
  method DoublingLoop(base: int, cap: int, retryCount: int) returns (delay: int)
    requires FitsInt64(base) && FitsInt64(cap)
    ensures delay == WrappedDelay(base, cap, retryCount)
  {
    delay := base;
    var i := 1;
    ScaledOnceMore(base, 0);
    while i < retryCount
      invariant 1 <= i
      invariant retryCount > 1 ==> i <= retryCount
      invariant retryCount <= 1 ==> i == 1
      invariant delay == Wrap64(Scaled(base, i - 1))
      invariant forall j: nat :: 1 <= j < i ==> Wrap64(Scaled(base, j)) < cap
    {
      ScaledOnceMore(base, i - 1);
      WrapOnceMore(Scaled(base, i - 1));
      delay := Wrap64(delay * 2);
      if delay >= cap {
        delay := cap;
        assert WrapsToCap(base, cap, retryCount);
        break;
      }
      i := i + 1;
    }
    if delay > cap {
      delay := cap;
    }
  }
}
