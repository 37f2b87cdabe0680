/** The delay before a stream reconnects: exponential, capped, in 64-bit arithmetic that wraps. */
module Backoff {

  const TWO_63: int := 0x8000_0000_0000_0000
  const TWO_64: int := 0x1_0000_0000_0000_0000

  /** The int64 that a mathematical integer becomes. */
  function Wrap(x: int): (r: int)
    ensures -TWO_63 <= r < TWO_63 && (x - r) % TWO_64 == 0
    ensures -TWO_63 <= x < TWO_63 ==> r == x
  {
    (x + TWO_63) % TWO_64 - TWO_63
  }

  function Pow2(k: nat): (r: nat)
    ensures r > 0
  {
    if k == 0 then 1 else 2 * Pow2(k - 1)
  }

  const DEFAULT_BASE := 100_000_000
  const DEFAULT_MAX := 30_000_000_000

  /** The delay before jitter.  The shift happens in int64 as well: at 63 it gives the least int64, beyond that 0. */
  function Delay(baseDelay: int, maxDelay: int, attempt: nat): int
    requires attempt >= 1
  {
    var base := if baseDelay == 0 then DEFAULT_BASE else baseDelay;
    var max := if maxDelay == 0 then DEFAULT_MAX else maxDelay;
    var delay := Wrap(base * Wrap(Pow2(attempt - 1)));
    if delay > max then max else delay
  }

  /** What the delay is meant to be. */
  function Intended(base: nat, max: nat, attempt: nat): nat
    requires attempt >= 1
  {
    var p := base * Pow2(attempt - 1);
    if p > max then max else p
  }

  lemma WrapCongruent(x: int, m: int)
    ensures Wrap(x + TWO_64 * m) == Wrap(x)
  {
  }

  /** Wrapping the power first makes no difference. */
  lemma WrapProduct(base: int, p: int)
    ensures Wrap(base * Wrap(p)) == Wrap(base * p)
  {
    var q := (p - Wrap(p)) / TWO_64;
    assert p == Wrap(p) + TWO_64 * q;
    assert base * p == base * Wrap(p) + TWO_64 * (base * q) by {
      assert base * (Wrap(p) + TWO_64 * q) == base * Wrap(p) + base * (TWO_64 * q);
      assert base * (TWO_64 * q) == TWO_64 * (base * q);
    }
    WrapCongruent(base * Wrap(p), base * q);
  }

  /** The delay is the intended one exactly when the product fits 63 bits, or wraps to no less than the maximum. */
  lemma DelayIff(base: nat, max: nat, attempt: nat)
    requires 0 < base && 0 < max < TWO_63 && attempt >= 1
    ensures var p := base * Pow2(attempt - 1);
            Delay(base, max, attempt) == Intended(base, max, attempt) <==> p < TWO_63 || Wrap(p) >= max
  {
    WrapProduct(base, Pow2(attempt - 1));
  }

  lemma {:induction false} ProductGrows(base: nat, i: nat, j: nat)
    requires i <= j
    ensures base * Pow2(i) <= base * Pow2(j)
    decreases j
  {
    if i < j {
      ProductGrows(base, i, j - 1);
      assert base * Pow2(j) == 2 * (base * Pow2(j - 1));
    }
  }

  /** Up to the last attempt whose product fits 63 bits, the delay is the product capped by the maximum and never
      decreases from attempt to attempt. */
  lemma DelaysGrow(base: nat, max: nat, n: nat, m: nat)
    requires 0 < base && 0 < max < TWO_63 && 1 <= n <= m && base * Pow2(m - 1) < TWO_63
    ensures Delay(base, max, n) == Intended(base, max, n) && Delay(base, max, m) == Intended(base, max, m)
    ensures 0 < Delay(base, max, n) <= Delay(base, max, m) <= max
  {
    ProductGrows(base, n - 1, m - 1);
    DelayIff(base, max, n);
    DelayIff(base, max, m);
    assert base * Pow2(n - 1) > 0;
  }

  lemma {:induction false} Pow2Sum(i: nat, j: nat)
    ensures Pow2(i + j) == Pow2(i) * Pow2(j)
  {
    if j > 0 {
      Pow2Sum(i, j - 1);
      assert Pow2(i + j) == 2 * Pow2(i + (j - 1)) == 2 * (Pow2(i) * Pow2(j - 1)) == Pow2(i) * (2 * Pow2(j - 1));
    } else {
      assert Pow2(i) * 1 == Pow2(i);
    }
  }

  /** From attempt 65 on the delay is 0, whatever the base: the stream reconnects without any pause. */
  lemma NoDelayInTheEnd(base: nat, max: nat, attempt: nat)
    requires 0 < base && 0 < max && attempt >= 65
    ensures Delay(base, max, attempt) == 0
  {
    Pow2Sum(attempt - 65, 64);
    Pow2Is64();
    hide Pow2;
    WrapCongruent(0, Pow2(attempt - 65));
    assert base * 0 == 0;
  }

  lemma Pow2Is64()
    ensures Pow2(64) == TWO_64 && Pow2(32) == 0x1_0000_0000 && Pow2(16) == 0x1_0000 && Pow2(8) == 256
  {
    assert Pow2(4) == 16;
    Pow2Sum(4, 4);
    Pow2Sum(8, 8);
    Pow2Sum(16, 16);
    Pow2Sum(32, 32);
  }

  // ---------------------------------------------------------------- the default configuration

  /** The default base times the power, in int64. */
  function Default(attempt: nat): int
    requires attempt >= 1
  {
    Wrap(DEFAULT_BASE * Pow2(attempt - 1))
  }

  lemma NextDefault(n: nat)
    requires n >= 1
    ensures Default(n + 1) == Wrap(2 * Default(n))
  {
    WrapProduct(2, DEFAULT_BASE * Pow2(n - 1));
    assert DEFAULT_BASE * Pow2(n) == 2 * (DEFAULT_BASE * Pow2(n - 1));
  }

  lemma DefaultAt37()
    ensures DEFAULT_BASE * Pow2(36) == 6871947673600000000 < TWO_63
  {
    Pow2Is64();
    assert Pow2(4) == 16;
    Pow2Sum(32, 4);
  }

  lemma WrapDouble(x: int)
    requires -TWO_63 <= x < TWO_63
    ensures Wrap(2 * x) == if 2 * x < -TWO_63 then 2 * x + TWO_64 else if 2 * x >= TWO_63 then 2 * x - TWO_64 else 2 * x
  {
  }

  /** The delays from attempt 37, the last whose product fits, to attempt 57, from which they are 0. */
  function Table(n: nat): int {
    if n <= 37 then 6871947673600000000
    else if n == 38 then -4702848726509551616
    else if n == 39 then 9041046620690448384
    else if n == 40 then -364650832328654848
    else if n == 41 then -729301664657309696
    else if n == 42 then -1458603329314619392
    else if n == 43 then -2917206658629238784
    else if n == 44 then -5834413317258477568
    else if n == 45 then 6777917439192596480
    else if n == 46 then -4890909195324358656
    else if n == 47 then 8664925683060834304
    else if n == 48 then -1116892707587883008
    else if n == 49 then -2233785415175766016
    else if n == 50 then -4467570830351532032
    else if n == 51 then -8935141660703064064
    else if n == 52 then 576460752303423488
    else if n == 53 then 1152921504606846976
    else if n == 54 then 2305843009213693952
    else if n == 55 then 4611686018427387904
    else if n == 56 then -9223372036854775808
    else 0
  }

  lemma {:induction false} DefaultsThatWrap(n: nat)
    requires 37 <= n
    ensures Default(n) == Table(n)
  {
    if n == 37 {
      FirstDefault();
    } else {
      DefaultsThatWrap(n - 1);
      NextDefault(n - 1);
      TableInRange(n - 1);
      WrapDouble(Table(n - 1));
      hide Default, Wrap;
    }
  }

  lemma TableInRange(n: nat)
    ensures -TWO_63 <= Table(n) < TWO_63
  {
  }

  lemma FirstDefault()
    ensures Default(37) == 6871947673600000000
  {
    DefaultAt37();
  }

  lemma DefaultsFillIn(n: nat)
    requires n >= 1
    ensures Delay(0, 0, n) == Delay(DEFAULT_BASE, DEFAULT_MAX, n)
  {
  }

  lemma DefaultFitsIff(n: nat)
    requires n >= 1
    ensures DEFAULT_BASE * Pow2(n - 1) < TWO_63 <==> n <= 37
  {
    DefaultAt37();
    if n <= 37 {
      ProductGrows(DEFAULT_BASE, n - 1, 36);
    } else {
      ProductGrows(DEFAULT_BASE, 37, n - 1);
      assert DEFAULT_BASE * Pow2(37) == 2 * (DEFAULT_BASE * Pow2(36));
    }
  }

  lemma TableReaches(n: nat)
    requires n >= 38
    ensures Table(n) >= DEFAULT_MAX <==> n in {39, 45, 47, 52, 53, 54, 55}
  {
  }

  /** With the default configuration the delay is the intended one for exactly these attempts. */
  lemma DefaultDelayIff(n: nat)
    requires n >= 1
    ensures Delay(0, 0, n) == Intended(DEFAULT_BASE, DEFAULT_MAX, n) <==> n <= 37 || n in {39, 45, 47, 52, 53, 54, 55}
  {
    hide Pow2, Wrap, Delay, Intended, Table;
    DefaultsFillIn(n);
    DelayIff(DEFAULT_BASE, DEFAULT_MAX, n);
    DefaultFitsIff(n);
    if n > 37 {
      DefaultsThatWrap(n);
      TableReaches(n);
    }
  }

  lemma TableBelow(n: nat)
    requires n >= 38 && n !in {39, 45, 47, 52, 53, 54, 55}
    ensures Table(n) <= 0
  {
  }

  lemma FirstTen(n: nat)
    requires n >= 1
    ensures 100_000_000 * Pow2(n - 1) <= 30_000_000_000 <==> n <= 9
  {
    assert Pow2(4) == 16;
    Pow2Sum(4, 4);
    if n <= 9 {
      ProductGrows(100_000_000, n - 1, 8);
    } else {
      ProductGrows(100_000_000, 9, n - 1);
      assert Pow2(9) == 2 * Pow2(8);
    }
  }

  /** The default delays in nanoseconds: a tenth of a second, doubled nine times at most, then half a minute up to
      attempt 37; from then on half a minute for seven attempts, and none or a negative one for all others. */
  lemma DefaultDelays(n: nat)
    requires n >= 1
    ensures n <= 9 ==> Delay(0, 0, n) == 100_000_000 * Pow2(n - 1)
    ensures 10 <= n <= 37 || n in {39, 45, 47, 52, 53, 54, 55} ==> Delay(0, 0, n) == 30_000_000_000
    ensures n == 38 || (40 <= n && n !in {45, 47, 52, 53, 54, 55}) ==> Delay(0, 0, n) <= 0
  {
    DefaultFitsIff(n);
    FirstTen(n);
    WrapProduct(DEFAULT_BASE, Pow2(n - 1));
    if n > 37 {
      DefaultsThatWrap(n);
      TableReaches(n);
      if n !in {39, 45, 47, 52, 53, 54, 55} {
        TableBelow(n);
      }
    }
    hide Pow2, Table;
  }

  // ---------------------------------------------------------------- jitter

  /** Conversion of a float to an integer cuts towards zero. */
  function Trunc(r: real): int { if r >= 0.0 then r.Floor else -((-r).Floor) }

  function Jitter(share: real, u: real): int { Trunc(share * (u * 2.0 - 1.0)) }

  /** `u` is the random number, at least 0 and below 1. */
  function Jittered(delay: int, u: real): int { delay + Jitter(delay as real * 0.1, u) }

  lemma Scaled(d: real, w: real)
    requires 0.0 <= d && -1.0 <= w <= 1.0
    ensures -d <= d * w <= d
  {
    if w >= 0.0 {
      assert d * (1.0 - w) >= 0.0;
    } else {
      assert d * (1.0 + w) >= 0.0;
    }
  }

  lemma TruncWithin(r: real, b: real)
    requires -b <= r <= b
    ensures -b <= Trunc(r) as real <= b
  {
  }

  lemma JitterBound(share: real, u: real)
    requires 0.0 <= share && 0.0 <= u < 1.0
    ensures -share <= Jitter(share, u) as real <= share
  {
    Scaled(share, u * 2.0 - 1.0);
    TruncWithin(share * (u * 2.0 - 1.0), share);
  }

  /** The jitter stays within a tenth of the delay. */
  lemma JitterWithinTenth(delay: nat, u: real)
    requires 0.0 <= u < 1.0
    ensures 9 * delay <= 10 * Jittered(delay, u) <= 11 * delay
  {
    hide Jitter;
    JitterBound(delay as real * 0.1, u);
  }

  /** The random number spreads the delay evenly from nine to eleven tenths of it, cut to an integer towards the delay:
      the result differs from that by less than one nanosecond. */
  lemma JitterIsEven(delay: nat, u: real)
    requires 0.0 <= u < 1.0
    ensures var exact := delay as real * (0.9 + 0.2 * u);
            && -1.0 < Jittered(delay, u) as real - exact < 1.0
            && (u < 0.5 ==> exact <= Jittered(delay, u) as real <= delay as real)
            && (u >= 0.5 ==> delay as real <= Jittered(delay, u) as real <= exact)
  {
    var d, w := delay as real * 0.1, u * 2.0 - 1.0;
    assert delay as real * (0.9 + 0.2 * u) == delay as real + d * w;
    if u < 0.5 {
      NotPositive(d, w);
    }
  }

  lemma NotPositive(d: real, w: real)
    requires 0.0 <= d && w < 0.0
    ensures d * w <= 0.0
  {
  }
}
