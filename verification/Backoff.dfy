/** The exponential retry delay computed by `worker`, in the source's signed 64-bit durations. */
module Backoff {

  const MAX_DURATION := 0x7FFF_FFFF_FFFF_FFFF
  newtype Duration = d: int | -0x8000_0000_0000_0000 <= d <= 0x7FFF_FFFF_FFFF_FFFF

  function Pow2(n: nat): (r: nat)
    ensures r >= 1
  {
    if n == 0 then 1 else 2 * Pow2(n - 1)
  }

  function Min(a: int, b: int): (r: int) {
    if a < b then a else b
  }

  /** The documented delay before the retry that follows attempt number `attempts`. */
  function Delay(base: nat, maximum: nat, attempts: nat): (r: nat) {
    if attempts == 0 then Min(base, maximum) else Min(base * Pow2(attempts - 1), maximum)
  }

  lemma {:induction false} Pow2Grows(m: nat, n: nat)
    requires m <= n
    ensures Pow2(m) <= Pow2(n)
  {
    if m < n {
      Pow2Grows(m, n - 1);
    }
  }

  lemma Pow2Of63()
    ensures Pow2(63) == MAX_DURATION + 1
  {
    assert Pow2(3) == 8;
    TenDoublings(3);
    TenDoublings(13);
    TenDoublings(23);
    TenDoublings(33);
    TenDoublings(43);
    TenDoublings(53);
  }

  lemma TenDoublings(n: nat)
    ensures Pow2(n + 10) == 1024 * Pow2(n)
  {
    assert Pow2(n + 2) == 4 * Pow2(n);
    assert Pow2(n + 4) == 4 * Pow2(n + 2);
    assert Pow2(n + 6) == 4 * Pow2(n + 4);
    assert Pow2(n + 8) == 4 * Pow2(n + 6);
    assert Pow2(n + 10) == 4 * Pow2(n + 8);
  }

  lemma ProductGrows(base: nat, m: nat, n: nat)
    requires m <= n
    ensures base * m <= base * n
  {
    assert base * n == base * m + base * (n - m);
  }

  /** Once doubling has passed the maximum, every further doubling stays past it. */
  lemma PastMaximum(base: nat, maximum: nat, done: nat, wanted: nat)
    requires done <= wanted && base * Pow2(done) >= maximum
    ensures Min(base * Pow2(wanted), maximum) == maximum
  {
    Pow2Grows(done, wanted);
    ProductGrows(base, Pow2(done), Pow2(wanted));
  }

  /** Retries of one event are never scheduled closer together as its attempts go up. */
  lemma DelayNonDecreasing(base: nat, maximum: nat, a: nat, b: nat)
    requires a <= b
    ensures Delay(base, maximum, a) <= Delay(base, maximum, b) <= maximum
  {
    var m, n := if a == 0 then 0 else a - 1, if b == 0 then 0 else b - 1;
    Pow2Grows(m, n);
    ProductGrows(base, Pow2(m), Pow2(n));
  }

  /** The base after `n` doublings. */
  function Doubled(base: nat, n: nat): (r: nat) {
    base * Pow2(n)
  }

  lemma DoubledNext(base: nat, n: nat)
    ensures Doubled(base, n + 1) == 2 * Doubled(base, n)
  {}

  lemma DoubledStart(base: nat)
    ensures Doubled(base, 0) == base
  {}

  /** 63 doublings are more than a duration holds. */
  lemma NoRoomFor63(base: nat)
    requires base > 0
    ensures Doubled(base, 63) > MAX_DURATION
  {
    Pow2Of63();
    ProductGrows(Pow2(63), 1, base);
  }

  lemma ReachedMaximum(base: nat, maximum: nat, n: nat, attempts: nat)
    requires n < attempts && Doubled(base, n) >= maximum
    ensures Delay(base, maximum, attempts) == maximum
  {
    PastMaximum(base, maximum, n, attempts - 1);
  }

  /**
    The loop of `worker`. Every intermediate value is a `Duration`, so no
    doubling overflows; the bound of 63 rounds is never what stops the loop.
  */
  method Compute(base: Duration, maximum: Duration, attempts: int) returns (delay: Duration)
    requires 0 < base <= maximum
    ensures attempts >= 1 ==> delay as int == Delay(base as int, maximum as int, attempts)
    ensures attempts < 1 ==> delay == base
  {
    delay := base;
    var rounds := if attempts - 1 < 63 then attempts - 1 else 63;
    var i := 0;
    DoubledStart(base as int);
    while i < rounds
      invariant 0 <= i && (rounds >= 0 ==> i <= rounds) && (rounds < 0 ==> i == 0)
      invariant delay as int == Doubled(base as int, i) && delay <= maximum
    {
      DoubledNext(base as int, i);
      if delay > maximum / 2 {
        delay := maximum;
        ReachedMaximum(base as int, maximum as int, i + 1, attempts);
        return;
      }
      delay := delay * 2;
      i := i + 1;
    }
    if rounds == 63 {
      NoRoomFor63(base as int);
      assert false;
    }
    if delay > maximum {
      delay := maximum;
    }
  }
}
