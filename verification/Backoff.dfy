/** FullJitterBackoff (packages/coordinator/lease.go:278-290), in Go's 64-bit durations. */
module Backoff {
  import opened Base
  import opened Bytes

  const TWO62: int := 0x4000_0000_0000_0000
  const TWO63: int := 0x8000_0000_0000_0000
  const TWO64: int := 0x1_0000_0000_0000_0000

  /** Go's result of an int64 operation: the low 64 bits, read as a signed number. */
  function Wrap(x: int): (r: Int64)
    ensures -TWO63 <= x < TWO63 ==> r == x
  {
    (x + TWO63) % TWO64 - TWO63
  }

  /** base * 2^t. */
  function Scaled(base: int, t: nat): int {
    if t == 0 then base else 2 * Scaled(base, t - 1)
  }

  lemma {:induction false} ScaledGrows(base: int, m: nat, n: nat)
    requires base > 0 && m <= n
    ensures 0 < Scaled(base, m) <= Scaled(base, n)
  {
    if m < n { ScaledGrows(base, m, n - 1); } else if m > 0 { ScaledGrows(base, m - 1, n - 1); }
  }

  /** min(max, base * 2^(attempt - 1)), with no cap and no doubling when max is not positive. */
  function Ideal(attempt: int, base: Int64, max: Int64): int
    requires base > 0 && attempt >= 1
  {
    if max <= 0 then base
    else if Scaled(base, attempt - 1) > max then max
    else Scaled(base, attempt - 1)
  }

  /** Some doubling starts below max from a value that does not fit in an int64 once doubled. */
  predicate Overflows(attempt: int, base: Int64, max: Int64) {
    exists t: nat :: t < attempt - 1 && TWO62 <= Scaled(base, t) < max
  }

  /** A cap of at most 2^62 is enough for the doubling never to overflow, whatever the attempt. */
  lemma SmallCapIsSafe(attempt: int, base: Int64, max: Int64)
    requires max <= TWO62
    ensures !Overflows(attempt, base, max)
  {
  }

  /** Every base has one doubling that brings it to 2^62 or above within 64 bits. */
  lemma {:induction false} Reaches(base: Int64, t: nat) returns (top: nat)
    requires base > 0 && Scaled(base, t) < TWO63
    ensures TWO62 <= Scaled(base, top) < TWO63
    decreases TWO63 - Scaled(base, t)
  {
    ScaledGrows(base, 0, t);
    top := t;
    if Scaled(base, t) < TWO62 { top := Reaches(base, t + 1); }
  }

  lemma Passes(base: Int64, t: nat, u: nat)
    requires base > 0 && t < u
    ensures Scaled(base, u) >= 2 * Scaled(base, t)
  {
    ScaledGrows(base, t, u - 1);
  }

  lemma ReachesOnce(base: Int64, t: nat, u: nat)
    requires base > 0 && TWO62 <= Scaled(base, t) < TWO63 && TWO62 <= Scaled(base, u) < TWO63
    ensures t == u
  {
    if t < u { Passes(base, t, u); } else if u < t { Passes(base, u, t); }
  }

  /** A cap overflows a base exactly when it lies above that doubling of it, and then from the attempt after
      it on, for good: the caps above 2^62 that are safe are those the base steps over. */
  lemma LargeCapOverflows(attempt: int, base: Int64, max: Int64, top: nat)
    requires base > 0 && TWO62 <= Scaled(base, top) < TWO63
    ensures Overflows(attempt, base, max) <==> attempt >= top + 2 && Scaled(base, top) < max
  {
    if t: nat :| t < attempt - 1 && TWO62 <= Scaled(base, t) < max { ReachesOnce(base, t, top); }
    if attempt >= top + 2 && Scaled(base, top) < max { assert top < attempt - 1; }
  }

  lemma WrapTwice(x: int)
    ensures Wrap(2 * Wrap(x)) == Wrap(2 * x)
  {
    var q := (x + TWO63) / TWO64;
    assert Wrap(x) == x - q * TWO64;
    SameLowBits(2 * x, 2 * q);
  }

  lemma SameLowBits(x: int, q: int)
    ensures Wrap(x - q * TWO64) == Wrap(x)
  {
    var a := x + TWO63;
    assert (a - q * TWO64) / TWO64 == a / TWO64 - q;
  }

  /** The loop, in Go's arithmetic: n doublings, each but the last from below max, and it stops short of
      attempt - 1 of them only at max or above. `wrapped` says whether a doubling lost its top bit. */
  method Double(attempt: int, base: Int64, max: Int64) returns (ceiling: Int64, ghost n: nat, ghost wrapped: bool)
    requires base > 0 && attempt >= 1
    ensures n <= attempt - 1 && ceiling == Wrap(Scaled(base, n))
    ensures (forall t: nat :: t < n ==> Wrap(Scaled(base, t)) < max) && (n < attempt - 1 ==> ceiling >= max)
    ensures wrapped <==> Overflows(attempt, base, max)
    ensures !wrapped ==> ceiling > 0
    ensures !wrapped ==> (if max <= 0 then ceiling == base
                          else (if ceiling > max then max else ceiling) == Ideal(attempt, base, max))
  {
    ceiling := base;
    n, wrapped := 0, false;
    var i := 1;
    while i < attempt && ceiling < max
      invariant 1 <= i <= attempt && n == i - 1
      invariant ceiling == Wrap(Scaled(base, n))
      invariant forall t: nat :: t < n ==> Wrap(Scaled(base, t)) < max
      invariant wrapped <==> Overflows(i, base, max)
      invariant !wrapped ==> ceiling == Scaled(base, n)
      invariant max <= 0 ==> n == 0
      invariant !wrapped ==> ceiling > 0
      decreases attempt - i
    {
      OverflowStep(i, base, max);
      WrapTwice(Scaled(base, n));
      if !wrapped && TWO62 <= ceiling { wrapped := true; }
      ceiling := Wrap(ceiling * 2);
      i, n := i + 1, n + 1;
    }
    if wrapped {
      OverflowStays(attempt, base, max, i);
    } else {
      Stopped(attempt, base, max, i);
      OverflowLater(attempt, base, max, i);
    }
  }

  lemma OverflowStep(i: int, base: Int64, max: Int64)
    requires base > 0 && i >= 1
    ensures Overflows(i + 1, base, max) <==> Overflows(i, base, max) || TWO62 <= Scaled(base, i - 1) < max
  {
    if t: nat :| t < i && TWO62 <= Scaled(base, t) < max { assert t < i - 1 || t == i - 1; }
    if t: nat :| t < i - 1 && TWO62 <= Scaled(base, t) < max { assert t < i; }
    if TWO62 <= Scaled(base, i - 1) < max { var t: nat := i - 1; assert t < i + 1 - 1; }
  }

  /** Where the loop stops short of its last attempt it has reached the cap. */
  lemma Stopped(attempt: int, base: Int64, max: Int64, i: int)
    requires base > 0 && 1 <= i <= attempt && (i < attempt ==> Scaled(base, i - 1) >= max)
    ensures max > 0 ==> (if Scaled(base, i - 1) > max then max else Scaled(base, i - 1)) == Ideal(attempt, base, max)
  {
    ScaledGrows(base, i - 1, attempt - 1);
    if i < attempt { assert Scaled(base, i - 1) >= max; }
  }

  lemma OverflowStays(attempt: int, base: Int64, max: Int64, i: int)
    requires i <= attempt && Overflows(i, base, max)
    ensures Overflows(attempt, base, max)
  {
    var t: nat :| t < i - 1 && TWO62 <= Scaled(base, t) < max;
    assert t < attempt - 1;
  }

  lemma OverflowLater(attempt: int, base: Int64, max: Int64, i: int)
    requires base > 0 && 1 <= i <= attempt && (i < attempt ==> Scaled(base, i - 1) >= max)
    ensures Overflows(attempt, base, max) <==> Overflows(i, base, max)
  {
    if t: nat :| t < attempt - 1 && TWO62 <= Scaled(base, t) < max {
      if t >= i - 1 { ScaledGrows(base, i - 1, t); }
      assert t < i - 1;
    }
  }

  /** rand.Int64N: any value below the bound; `pick` is the random source's choice. */
  function Int64N(bound: Int64, pick: nat): (r: Int64)
    requires bound > 0
    ensures 0 <= r < bound && (pick < bound ==> r == pick)
  {
    if pick < bound then pick else 0
  }

  /** The most the delay can be: what the loop reached after n doublings, capped. */
  function Top(base: Int64, max: Int64, n: nat): int {
    var reached := Wrap(Scaled(base, n));
    if max > 0 && reached > max then max else reached
  }

  /** The delay, or None where rand.Int64N would be given a bound that is not positive: exactly when the top is
      negative, as an overflow can make it, or the largest duration there is. `pick` is the random source: any
      natural number. */
  method FullJitterBackoff(attempt: int, base: Int64, max: Int64, pick: nat)
    returns (delay: Option<Int64>, ghost n: nat)
    ensures base <= 0 || attempt < 1 ==> delay == Some(0)
    ensures base > 0 && attempt >= 1 ==>
              && n <= attempt - 1 && (forall t: nat :: t < n ==> Wrap(Scaled(base, t)) < max)
              && (n < attempt - 1 ==> Wrap(Scaled(base, n)) >= max)
              && var top := Top(base, max, n);
                 && (delay.None? <==> top < 0 || top == TWO63 - 1)
                 && (delay.Some? ==> 0 <= delay.value <= top && (pick <= top ==> delay.value == pick))
                 && (!Overflows(attempt, base, max) ==> top == Ideal(attempt, base, max))
  {
    if base <= 0 || attempt < 1 { return Some(0), 0; }
    var ceiling;
    ghost var wrapped;
    ceiling, n, wrapped := Double(attempt, base, max);
    if max > 0 && ceiling > max { ceiling := max; }
    var bound := Wrap(ceiling + 1);
    if bound <= 0 { return None, n; }
    delay := Some(Int64N(bound, pick));
  }

  /** The first doubling to overflow makes the top negative, so the attempt right after it panics. */
  lemma OverflowPanics(base: Int64, max: Int64, top: nat)
    requires base > 0 && TWO62 <= Scaled(base, top) < TWO63 && Scaled(base, top) < max
    ensures Top(base, max, top + 1) < 0
    ensures forall t: nat :: t <= top ==> Wrap(Scaled(base, t)) < max
  {
    forall t: nat | t <= top ensures Wrap(Scaled(base, t)) < max { ScaledGrows(base, t, top); }
  }
}
