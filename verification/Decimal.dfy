/** Exact non-negative decimals and their decimal digits.  Every finite float64 that is not negative is such a
    decimal; negative values, infinities and NaN are not. */
module Decimal {

  /** The number `m` divided by ten to the power `k`. */
  datatype Dec = Dec(m: nat, k: nat)

  /** `m` with `j` zeros appended: `m` times ten to the power `j`. */
  function Lift(m: nat, j: nat): (r: nat)
    ensures r >= m
    ensures m > 0 ==> r > 0
    decreases j
  {
    if j == 0 then m else Lift(10 * m, j - 1)
  }

  /** `m` without its last `j` digits. */
  function Drop(m: nat, j: nat): nat {
    if j == 0 then m else Drop(m / 10, j - 1)
  }

  /** The number of decimal digits of `m`, none for zero. */
  function Digits(m: nat): nat {
    if m == 0 then 0 else Digits(m / 10) + 1
  }

  /** The last `j` digits of `m` are zeros. */
  predicate EndsInZeros(m: nat, j: nat) {
    j == 0 || (m % 10 == 0 && EndsInZeros(m / 10, j - 1))
  }

  /** The order of two decimals, compared on a common scale. */
  predicate Leq(x: Dec, y: Dec) { Lift(x.m, y.k) <= Lift(y.m, x.k) }

  predicate Same(x: Dec, y: Dec) { Lift(x.m, y.k) == Lift(y.m, x.k) }

  lemma {:induction false} LiftOrder(a: nat, b: nat, j: nat)
    ensures a <= b <==> Lift(a, j) <= Lift(b, j)
    decreases j
  {
    if j > 0 {
      LiftOrder(10 * a, 10 * b, j - 1);
    }
  }

  lemma {:induction false} LiftAdd(a: nat, i: nat, j: nat)
    ensures Lift(Lift(a, i), j) == Lift(a, i + j)
    ensures Lift(a, i + 1) == 10 * Lift(a, i)
    decreases i
  {
    if i > 0 {
      LiftAdd(10 * a, i - 1, j);
    }
  }

  lemma {:induction false} LiftSum(a: nat, b: nat, j: nat)
    ensures Lift(a + b, j) == Lift(a, j) + Lift(b, j)
    decreases j
  {
    if j > 0 {
      LiftSum(10 * a, 10 * b, j - 1);
    }
  }

  lemma {:induction false} LiftThenDrop(a: nat, j: nat)
    ensures Drop(Lift(a, j), j) == a
    ensures EndsInZeros(Lift(a, j), j)
  {
    if j > 0 {
      LiftAdd(a, j - 1, 0);
      LiftThenDrop(a, j - 1);
    }
  }

  lemma {:induction false} DropThenLift(m: nat, j: nat)
    ensures Lift(Drop(m, j), j) <= m < Lift(Drop(m, j) + 1, j)
    ensures EndsInZeros(m, j) <==> Lift(Drop(m, j), j) == m
  {
    if j > 0 {
      DropThenLift(m / 10, j - 1);
      LiftAdd(Drop(m, j), j - 1, 0);
      LiftAdd(Drop(m, j) + 1, j - 1, 0);
    }
  }

  lemma {:induction false} DropOrder(a: nat, b: nat, j: nat)
    requires a <= b
    ensures Drop(a, j) <= Drop(b, j)
  {
    if j > 0 {
      DropOrder(a / 10, b / 10, j - 1);
    }
  }

  lemma {:induction false} DropAdd(m: nat, i: nat, j: nat)
    ensures Drop(Drop(m, i), j) == Drop(m, i + j)
  {
    if i > 0 {
      DropAdd(m / 10, i - 1, j);
    }
  }

  lemma {:induction false} FewerZeros(m: nat, i: nat, j: nat)
    requires i <= j && EndsInZeros(m, j)
    ensures EndsInZeros(m, i)
  {
    if i > 0 {
      FewerZeros(m / 10, i - 1, j - 1);
    }
  }

  lemma {:induction false} LiftZeros(a: nat, i: nat, j: nat)
    requires EndsInZeros(a, i)
    ensures EndsInZeros(Lift(a, j), i + j)
    decreases j
  {
    if j > 0 {
      assert (10 * a) % 10 == 0 && (10 * a) / 10 == a;
      LiftZeros(10 * a, i + 1, j - 1);
    }
  }

  /** A number has at most `t` digits when it is below the `t`-th power of ten. */
  lemma {:induction false} DigitsBound(m: nat, t: nat)
    ensures Digits(m) <= t <==> m < Lift(1, t)
  {
    if t > 0 && m > 0 {
      DigitsBound(m / 10, t - 1);
      LiftAdd(1, t - 1, 0);
    }
  }

  lemma {:induction false} DigitsLift(m: nat, j: nat)
    requires m > 0
    ensures Digits(Lift(m, j)) == Digits(m) + j
    decreases j
  {
    if j > 0 {
      DigitsLift(10 * m, j - 1);
    }
  }

  lemma DigitsOrder(a: nat, b: nat)
    requires a <= b
    ensures Digits(a) <= Digits(b)
  {
    DigitsBound(b, Digits(b));
    DigitsBound(a, Digits(b));
  }

  // ---------------------------------------------------------------- rounding

  /** `m` divided by ten to the power `j`, rounded to the nearest integer with halves up. */
  function RoundDrop(m: nat, j: nat): nat {
    if j == 0 then m else (Drop(m, j - 1) + 5) / 10
  }

  /** `m` rounded to a multiple of ten to the power `j`. */
  function Rounded(m: nat, j: nat): nat { Lift(RoundDrop(m, j), j) }

  lemma RoundedOrder(a: nat, b: nat, j: nat)
    requires a <= b
    ensures Rounded(a, j) <= Rounded(b, j)
  {
    if j > 0 {
      DropOrder(a, b, j - 1);
    }
    LiftOrder(RoundDrop(a, j), RoundDrop(b, j), j);
  }

  /** Rounding changes nothing exactly when the digits to be rounded away are zeros. */
  lemma RoundedFixed(m: nat, j: nat)
    ensures EndsInZeros(Rounded(m, j), j)
    ensures EndsInZeros(m, j) <==> Rounded(m, j) == m
  {
    LiftThenDrop(RoundDrop(m, j), j);
    if j > 0 && EndsInZeros(m, j) {
      DropThenLift(m, j);
      var q := Drop(m, j);
      LiftAdd(q, j - 1, 0);
      LiftAdd(q, 1, j - 1);
      LiftThenDrop(10 * q, j - 1);
      assert m == Lift(10 * q, j - 1);
    }
  }

  /** Rounding moves a number by at most half of the unit it is rounded to, and by a half only upwards. */
  lemma RoundedNearest(m: nat, j: nat)
    ensures 2 * Rounded(m, j) <= 2 * m + Lift(1, j)
    ensures 2 * m < 2 * Rounded(m, j) + Lift(1, j)
  {
    if j > 0 {
      DropThenLift(m, j - 1);
      NearestUnit(m, j - 1, Drop(m, j - 1), RoundDrop(m, j));
    }
  }

  lemma NearestUnit(m: nat, i: nat, p: nat, n: nat)
    requires Lift(p, i) <= m < Lift(p + 1, i) && 10 * n <= p + 5 < 10 * n + 10
    ensures 2 * Lift(10 * n, i) <= 2 * m + Lift(10, i)
    ensures 2 * m < 2 * Lift(10 * n, i) + Lift(10, i)
  {
    hide Lift;
    LiftOrder(10 * n, p + 5, i);
    LiftOrder(p + 1, 10 * n + 5, i);
    LiftSum(p, 5, i);
    LiftSum(10 * n, 5, i);
    LiftSum(5, 5, i);
  }
}
