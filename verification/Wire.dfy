/** The text form of prices and sizes sent to the exchange, and the slippage price. */
module Wire {
  import opened Decimal

  datatype Option<+T> = None | Some(value: T)

  // ---------------------------------------------------------------- printing

  function Digit(n: nat): char
    requires n < 10
  {
    "0123456789"[n]
  }

  function ShowNat(n: nat): (s: string)
    ensures |s| > 0
  {
    if n < 10 then [Digit(n)] else ShowNat(n / 10) + [Digit(n % 10)]
  }

  /** The last `d` digits of `n`, with leading zeros. */
  function Fraction(n: nat, d: nat): (s: string)
    ensures |s| == d
  {
    if d == 0 then "" else Fraction(n / 10, d - 1) + [Digit(n % 10)]
  }

  /** `n` units of the `d`-th decimal place in fixed-point notation with `d` decimals. */
  function FormatFixed(n: nat, d: nat): string {
    ShowNat(Drop(n, d)) + if d == 0 then "" else "." + Fraction(n, d)
  }

  function TrimRight(s: string, c: char): string {
    if |s| > 0 && s[|s| - 1] == c then TrimRight(s[..|s| - 1], c) else s
  }

  function Trim(s: string): string {
    if '.' in s then TrimRight(TrimRight(s, '0'), '.') else s
  }

  // ---------------------------------------------------------------- parsing

  predicate IsDigit(c: char) { '0' <= c <= '9' }

  predicate AllDigits(s: string) { forall i :: 0 <= i < |s| ==> IsDigit(s[i]) }

  function DigitValue(c: char): nat
    requires IsDigit(c)
  {
    c as int - '0' as int
  }

  function NatValue(s: string): nat
    requires AllDigits(s)
  {
    if s == "" then 0 else 10 * NatValue(s[..|s| - 1]) + DigitValue(s[|s| - 1])
  }

  /** The position of the decimal point, the length of the text when there is none. */
  function Point(s: string): (i: nat)
    ensures i <= |s|
    ensures forall j :: 0 <= j < i ==> s[j] != '.'
    ensures i < |s| ==> s[i] == '.'
  {
    if s == "" || s[0] == '.' then 0 else Point(s[1..]) + 1
  }

  function Whole(s: string): string { s[..Point(s)] }

  function Decimals(s: string): string { if Point(s) == |s| then "" else s[Point(s) + 1..] }

  /** Reads a number written as digits, optionally followed by a point and more digits. */
  function Parse(s: string): Option<Dec> {
    if Whole(s) == "" || (Point(s) < |s| && Decimals(s) == "") || !AllDigits(Whole(s) + Decimals(s)) then None
    else Some(Dec(NatValue(Whole(s) + Decimals(s)), |Decimals(s)|))
  }

  // ---------------------------------------------------------------- PriceToWire and SizeToWire

  predicate IsInteger(x: Dec) { EndsInZeros(x.m, x.k) }

  /** The integer part. */
  function Truncated(x: Dec): nat { Drop(x.m, x.k) }

  /** The base-ten logarithm of `x`, rounded down. */
  function Log10Floor(x: Dec): int
    requires x.m > 0
  {
    Digits(x.m) - 1 - x.k
  }

  /** The logarithm of the reciprocal, rounded up, is the negated exponent: `x` in one decade below one. */
  function SignificantDecimals(x: Dec): (d: nat)
    requires x.m > 0
  {
    if Leq(Dec(1, 0), x) then
      var allowed := 5 - (Log10Floor(x) + 1);
      if allowed < 0 then 0 else allowed
    else
      DigitsBelowOne(x);
      4 - Log10Floor(x)
  }

  function AllowedDecimals(x: Dec, maxDecimals: int, szDecimals: int): (d: nat)
    requires x.m > 0
  {
    var tick, sig := maxDecimals - szDecimals, SignificantDecimals(x);
    var allowed := if sig < tick then sig else tick;
    if allowed < 0 then 0 else allowed
  }

  /** `x` rounded to `d` places, in units of the last of them. */
  function Units(x: Dec, d: nat): nat {
    if d >= x.k then Lift(x.m, d - x.k) else RoundDrop(x.m, x.k - d)
  }

  lemma {:induction false} ZeroEndsInZeros(k: nat)
    ensures EndsInZeros(0, k)
  {
    if k > 0 {
      ZeroEndsInZeros(k - 1);
    }
  }

  function PriceToWire(x: Dec, maxDecimals: int, szDecimals: int): string {
    if IsInteger(x) then ShowNat(Truncated(x))
    else
      ZeroEndsInZeros(x.k);
      var d := AllowedDecimals(x, maxDecimals, szDecimals);
      Trim(FormatFixed(Units(x, d), d))
  }

  /** The decimals that a size is printed with.  For a negative precision the factor is one, and the formatter
      prints the shortest text of the resulting integer, which has no decimals. */
  function SizePlaces(szDecimals: int): nat { if szDecimals > 0 then szDecimals else 0 }

  /** Unlike PriceToWire this trims zeros also from a text without a decimal point. */
  function SizeToWire(x: Dec, szDecimals: int): string {
    if szDecimals == 0 then ShowNat(Truncated(x))
    else if IsInteger(x) then ShowNat(Truncated(x))
    else TrimRight(TrimRight(FormatFixed(Units(x, SizePlaces(szDecimals)), SizePlaces(szDecimals)), '0'), '.')
  }

  /** The decade of `x`: ten to the exponent is at most `x`, ten to the next exponent is above. */
  lemma Log10FloorBounds(x: Dec)
    requires x.m > 0
    ensures Log10Floor(x) >= 0 ==> Leq(Dec(Lift(1, Log10Floor(x)), 0), x) && !Leq(Dec(Lift(1, Log10Floor(x) + 1), 0), x)
    ensures Log10Floor(x) < 0 ==> Leq(Dec(1, -Log10Floor(x)), x) && !Leq(Dec(1, -Log10Floor(x) - 1), x)
  {
    var e, n := Log10Floor(x), Digits(x.m);
    DigitsBound(x.m, n);
    DigitsBound(x.m, n - 1);
    if e >= 0 {
      LiftAdd(1, e, x.k);
      LiftAdd(1, e + 1, x.k);
    } else {
      DecadeBelowOne(x.m, x.k, n);
    }
  }

  lemma DecadeBelowOne(m: nat, k: nat, n: nat)
    requires 0 < n <= k && Lift(1, n - 1) <= m < Lift(1, n)
    ensures Lift(1, k) <= Lift(m, k + 1 - n) && Lift(m, k - n) < Lift(1, k)
  {
    LiftAdd(1, n - 1, k + 1 - n);
    LiftOrder(Lift(1, n - 1), m, k + 1 - n);
    LiftAdd(1, n, k - n);
    LiftOrder(Lift(1, n), m, k - n);
  }

  lemma DigitsBelowOne(x: Dec)
    ensures Leq(Dec(1, 0), x) <==> Digits(x.m) > x.k
  {
    DigitsBound(x.m, x.k);
  }

  // ---------------------------------------------------------------- printer and parser

  /** The shortest way to write a value: no zero at the end of the fraction. */
  function Canon(n: nat, d: nat): Dec {
    if d > 0 && n % 10 == 0 then Canon(n / 10, d - 1) else Dec(n, d)
  }

  predicate Canonical(v: Dec) { v.k > 0 ==> v.m % 10 != 0 }

  lemma {:induction false} CanonValue(n: nat, d: nat)
    ensures Canonical(Canon(n, d)) && Canon(n, d).k <= d
    ensures Lift(Canon(n, d).m, d - Canon(n, d).k) == n
    ensures EndsInZeros(n, d) ==> Canon(n, d) == Dec(Drop(n, d), 0)
  {
    if d > 0 && n % 10 == 0 {
      CanonValue(n / 10, d - 1);
      LiftAdd(Canon(n, d).m, d - 1 - Canon(n, d).k, 0);
    }
  }

  lemma CanonicalUnique(v: Dec, w: Dec)
    requires Canonical(v) && Canonical(w) && Same(v, w)
    ensures v == w
    decreases v.k
  {
    if v.k > w.k {
      CanonicalUnique(w, v);
    } else {
      LiftAdd(v.m, w.k - v.k, v.k);
      LiftOrder(Lift(v.m, w.k - v.k), w.m, v.k);
      LiftOrder(w.m, Lift(v.m, w.k - v.k), v.k);
      LiftThenDrop(v.m, w.k - v.k);
    }
  }

  lemma {:induction false} ShowNatDigits(n: nat)
    ensures AllDigits(ShowNat(n)) && NatValue(ShowNat(n)) == n
    ensures |ShowNat(n)| > 1 ==> ShowNat(n)[0] != '0'
    ensures n > 0 ==> ShowNat(n)[0] != '0'
  {
    if n >= 10 {
      ShowNatDigits(n / 10);
    }
  }

  lemma {:induction false} FractionIsDigits(n: nat, d: nat)
    ensures AllDigits(Fraction(n, d))
    ensures d > 0 && n % 10 != 0 ==> Fraction(n, d)[d - 1] != '0'
  {
    if d > 0 {
      FractionIsDigits(n / 10, d - 1);
    }
  }

  lemma {:induction false} FractionDigits(whole: string, n: nat, d: nat)
    requires AllDigits(whole) && NatValue(whole) == Drop(n, d)
    ensures AllDigits(whole + Fraction(n, d)) && NatValue(whole + Fraction(n, d)) == n
  {
    if d > 0 {
      FractionDigits(whole, n / 10, d - 1);
      assert (whole + Fraction(n, d))[..|whole| + d - 1] == whole + Fraction(n / 10, d - 1);
    } else {
      assert whole + Fraction(n, d) == whole;
    }
  }

  lemma {:induction false} PointOf(whole: string, rest: string)
    requires AllDigits(whole) && (rest == "" || rest[0] == '.')
    ensures Point(whole + rest) == |whole|
  {
    if whole != "" {
      assert (whole + rest)[1..] == whole[1..] + rest;
      PointOf(whole[1..], rest);
    }
  }

  lemma FormatParts(n: nat, d: nat)
    ensures Whole(FormatFixed(n, d)) == ShowNat(Drop(n, d))
    ensures Decimals(FormatFixed(n, d)) == Fraction(n, d)
    ensures Point(FormatFixed(n, d)) < |FormatFixed(n, d)| <==> d > 0
  {
    hide ShowNat, Fraction, Drop, Point;
    ShowNatDigits(Drop(n, d));
    PointOf(ShowNat(Drop(n, d)), if d == 0 then "" else "." + Fraction(n, d));
  }

  /** The parser reads back exactly the printed number, with the printed number of places. */
  lemma ParseFormat(n: nat, d: nat)
    ensures Parse(FormatFixed(n, d)) == Some(Dec(n, d))
  {
    FormatParts(n, d);
    ShowNatDigits(Drop(n, d));
    FractionDigits(ShowNat(Drop(n, d)), n, d);
  }

  lemma LastOfFormat(n: nat, d: nat)
    requires d > 0
    ensures '.' in FormatFixed(n, d)
    ensures FormatFixed(n, d)[|FormatFixed(n, d)| - 1] == Digit(n % 10)
    ensures FormatFixed(n, d)[..|FormatFixed(n, d)| - 1] == if d == 1 then ShowNat(n / 10) + "."
              else FormatFixed(n / 10, d - 1)
  {
    assert FormatFixed(n, d)[|ShowNat(Drop(n, d))|] == '.';
  }

  lemma TrimRightEnd(t: string, c: char, e: char)
    ensures TrimRight(t + [e], c) == if e == c then TrimRight(t, c) else t + [e]
  {
    assert (t + [e])[..|t|] == t;
  }

  lemma TrimEnd(t: string, e: char)
    requires '.' in t
    ensures e == '0' ==> Trim(t + [e]) == Trim(t)
    ensures e != '0' && e != '.' ==> Trim(t + [e]) == t + [e]
  {
    TrimRightEnd(t, '0', e);
    TrimRightEnd(t, '.', e);
  }

  lemma TrimBarePoint(n: nat)
    ensures Trim(ShowNat(n) + ".") == ShowNat(n)
  {
    var t := ShowNat(n);
    ShowNatDigits(n);
    TrimRightEnd(t, '0', '.');
    TrimRightEnd(t, '.', '.');
    assert IsDigit(t[|t| - 1]);
  }

  /** A fixed-point text with decimals is a text that holds a point, followed by its last digit. */
  lemma FormatLast(n: nat, d: nat) returns (t: string)
    requires d > 0
    ensures FormatFixed(n, d) == t + [Digit(n % 10)] && '.' in t
    ensures t == if d == 1 then ShowNat(n / 10) + "." else FormatFixed(n / 10, d - 1)
  {
    LastOfFormat(n, d);
    t := FormatFixed(n, d)[..|FormatFixed(n, d)| - 1];
    if d == 1 {
      assert t[|t| - 1] == '.';
    } else {
      LastOfFormat(n / 10, d - 1);
    }
  }

  lemma FormatInteger(n: nat)
    ensures FormatFixed(n, 0) == ShowNat(n)
    ensures Trim(ShowNat(n)) == ShowNat(n)
  {
    ShowNatDigits(n);
    assert Drop(n, 0) == n;
  }

  /** One digit of trimming: a last zero goes, and with it a point that is left bare. */
  lemma TrimStep(n: nat, d: nat)
    requires d > 0
    ensures n % 10 != 0 ==> Trim(FormatFixed(n, d)) == FormatFixed(n, d)
    ensures n % 10 == 0 && d == 1 ==> Trim(FormatFixed(n, d)) == FormatFixed(n / 10, 0)
    ensures n % 10 == 0 && d > 1 ==> Trim(FormatFixed(n, d)) == Trim(FormatFixed(n / 10, d - 1))
  {
    hide FormatFixed, ShowNat, Trim;
    var t := FormatLast(n, d);
    TrimEnd(t, Digit(n % 10));
    TrimBarePoint(n / 10);
    FormatInteger(n / 10);
  }

  /** Trimming a fixed-point text gives the shortest text of the same value. */
  lemma {:induction false} TrimFormat(n: nat, d: nat)
    ensures Trim(FormatFixed(n, d)) == FormatFixed(Canon(n, d).m, Canon(n, d).k)
  {
    hide FormatFixed, ShowNat, Trim;
    if d == 0 {
      FormatInteger(n);
    } else {
      TrimStep(n, d);
      if n % 10 == 0 && d > 1 {
        TrimFormat(n / 10, d - 1);
      }
    }
  }

  /** A wire number: digits without a leading zero, then nothing or a point and decimals that do not end in zero. */
  predicate IsWireNumber(s: string) {
    && Whole(s) != "" && AllDigits(Whole(s)) && AllDigits(Decimals(s))
    && (|Whole(s)| > 1 ==> Whole(s)[0] != '0')
    && (Point(s) < |s| ==> Decimals(s) != "" && Decimals(s)[|Decimals(s)| - 1] != '0')
  }

  /** The text of a canonical value is a wire number, and it parses to that value. */
  lemma CanonicalText(v: Dec)
    requires Canonical(v)
    ensures IsWireNumber(FormatFixed(v.m, v.k))
    ensures Parse(FormatFixed(v.m, v.k)) == Some(v)
    ensures Whole(FormatFixed(v.m, v.k)) == ShowNat(Truncated(v))
    ensures |Decimals(FormatFixed(v.m, v.k))| == v.k
    ensures Point(FormatFixed(v.m, v.k)) < |FormatFixed(v.m, v.k)| <==> v.k > 0
  {
    FormatParts(v.m, v.k);
    ShowNatDigits(Drop(v.m, v.k));
    ParseFormat(v.m, v.k);
    FractionIsDigits(v.m, v.k);
  }

  // ---------------------------------------------------------------- the values on the wire

  /** The number of places a price is rounded to; a price of zero is an integer and needs none. */
  function Places(x: Dec, maxDecimals: int, szDecimals: int): nat {
    if x.m == 0 then 0 else AllowedDecimals(x, maxDecimals, szDecimals)
  }

  /** The number that a price text stands for. */
  function PriceValue(x: Dec, maxDecimals: int, szDecimals: int): Dec {
    if IsInteger(x) then Dec(Truncated(x), 0)
    else Canon(Units(x, Places(x, maxDecimals, szDecimals)), Places(x, maxDecimals, szDecimals))
  }

  lemma PriceText(x: Dec, maxDecimals: int, szDecimals: int)
    ensures Canonical(PriceValue(x, maxDecimals, szDecimals))
    ensures PriceToWire(x, maxDecimals, szDecimals)
         == FormatFixed(PriceValue(x, maxDecimals, szDecimals).m, PriceValue(x, maxDecimals, szDecimals).k)
  {
    ZeroEndsInZeros(x.k);
    if !IsInteger(x) {
      var d := Places(x, maxDecimals, szDecimals);
      CanonValue(Units(x, d), d);
      TrimFormat(Units(x, d), d);
    }
  }

  /** A price as the same number with `j` more places. */
  function Finer(x: Dec, j: nat): Dec { Dec(Lift(x.m, j), x.k + j) }

  /** What goes on the wire depends on the number only, not on how many places it is given with. */
  lemma {:induction false} FinerSameWire(x: Dec, j: nat, maxDecimals: int, szDecimals: int)
    ensures Places(Finer(x, j), maxDecimals, szDecimals) == Places(x, maxDecimals, szDecimals)
    ensures PriceValue(Finer(x, j), maxDecimals, szDecimals) == PriceValue(x, maxDecimals, szDecimals)
    decreases j
  {
    if j > 0 {
      var y := Dec(10 * x.m, x.k + 1);
      DigitsBelowOne(x);
      DigitsBelowOne(y);
      if x.m > 0 {
        assert Digits(y.m) == Digits(x.m) + 1;
      }
      assert forall d: nat :: Units(y, d) == Units(x, d);
      FinerSameWire(y, j - 1, maxDecimals, szDecimals);
    }
  }

  /** With at least as many places as are kept, the wire value is the number rounded at the kept place. */
  lemma PriceIsRounded(x: Dec, maxDecimals: int, szDecimals: int)
    requires Places(x, maxDecimals, szDecimals) <= x.k
    ensures PriceValue(x, maxDecimals, szDecimals).k <= Places(x, maxDecimals, szDecimals)
    ensures Lift(PriceValue(x, maxDecimals, szDecimals).m, x.k - PriceValue(x, maxDecimals, szDecimals).k)
         == Rounded(x.m, x.k - Places(x, maxDecimals, szDecimals))
  {
    var d := Places(x, maxDecimals, szDecimals);
    var v := PriceValue(x, maxDecimals, szDecimals);
    if IsInteger(x) {
      DropThenLift(x.m, x.k);
      FewerZeros(x.m, x.k - d, x.k);
      RoundedFixed(x.m, x.k - d);
    } else {
      CanonValue(Units(x, d), d);
      assert Units(x, d) == RoundDrop(x.m, x.k - d);
      LiftAdd(v.m, d - v.k, x.k - d);
    }
  }

  /** Numbers in one decade keep the same places; a higher decade never keeps more. */
  lemma PlacesByDecade(a: nat, b: nat, k: nat, maxDecimals: int, szDecimals: int)
    requires 0 < a && Digits(a) <= Digits(b)
    ensures b > 0
    ensures Places(Dec(b, k), maxDecimals, szDecimals) <= Places(Dec(a, k), maxDecimals, szDecimals)
    ensures Digits(a) == Digits(b) ==>
              Places(Dec(b, k), maxDecimals, szDecimals) ==
              Places(Dec(a, k), maxDecimals, szDecimals)
    ensures Places(Dec(b, k), maxDecimals, szDecimals) < Places(Dec(a, k), maxDecimals, szDecimals)
        ==> Digits(b) - 1 >= k - Places(Dec(b, k), maxDecimals, szDecimals)
  {
    DigitsBelowOne(Dec(a, k));
    DigitsBelowOne(Dec(b, k));
  }

  /** Order of the rounded numbers at a common scale, across decades and carries. */
  lemma RoundedPricesOrdered(a: nat, b: nat, k: nat, maxDecimals: int, szDecimals: int)
    requires a <= b
    requires Places(Dec(a, k), maxDecimals, szDecimals) <= k && Places(Dec(b, k), maxDecimals, szDecimals) <= k
    ensures Rounded(a, k - Places(Dec(a, k), maxDecimals, szDecimals)) <= Rounded(b,
                k - Places(Dec(b, k), maxDecimals, szDecimals))
  {
    var da, db := Places(Dec(a, k), maxDecimals, szDecimals), Places(Dec(b, k), maxDecimals, szDecimals);
    if a == 0 {
      ZeroEndsInZeros(k - da);
      RoundedFixed(0, k - da);
    } else {
      DigitsOrder(a, b);
      PlacesByDecade(a, b, k, maxDecimals, szDecimals);
      if da == db {
        RoundedOrder(a, b, k - da);
      } else {
        var t := Digits(b) - 1;
        var decade := Lift(1, t);
        DigitsBound(a, t);
        DigitsBound(b, t);
        LiftThenDrop(1, t);
        FewerZeros(decade, k - db, t);
        FewerZeros(decade, k - da, t);
        RoundedFixed(decade, k - da);
        RoundedFixed(decade, k - db);
        RoundedOrder(a, decade, k - da);
        RoundedOrder(decade, b, k - db);
      }
    }
  }

  /** Two numbers compare as they do at any scale that is fine enough for both. */
  lemma LeqAtScale(v: Dec, w: Dec, k: nat)
    requires v.k + w.k <= k
    ensures Leq(v, w) <==> Lift(v.m, k - v.k) <= Lift(w.m, k - w.k)
  {
    var rest := k - v.k - w.k;
    LiftAdd(v.m, w.k, rest);
    LiftAdd(w.m, v.k, rest);
    LiftOrder(Lift(v.m, w.k), Lift(w.m, v.k), rest);
  }

  /** At a scale that is fine enough, the wire value is the number rounded at the kept place. */
  lemma PriceAtScale(x: Dec, k: nat, maxDecimals: int, szDecimals: int)
    requires x.k + Places(x, maxDecimals, szDecimals) <= k
    ensures PriceValue(x, maxDecimals, szDecimals).k <= Places(x, maxDecimals, szDecimals)
    ensures Places(Dec(Lift(x.m, k - x.k), k), maxDecimals, szDecimals) == Places(x, maxDecimals, szDecimals)
    ensures Lift(PriceValue(x, maxDecimals, szDecimals).m, k - PriceValue(x, maxDecimals, szDecimals).k)
         == Rounded(Lift(x.m, k - x.k), k - Places(x, maxDecimals, szDecimals))
  {
    FinerSameWire(x, k - x.k, maxDecimals, szDecimals);
    PriceIsRounded(Finer(x, k - x.k), maxDecimals, szDecimals);
  }

  lemma PriceValueMonotone(x: Dec, y: Dec, maxDecimals: int, szDecimals: int)
    requires Leq(x, y)
    ensures Leq(PriceValue(x, maxDecimals, szDecimals), PriceValue(y, maxDecimals, szDecimals))
  {
    var k := x.k + y.k + Places(x, maxDecimals, szDecimals) + Places(y, maxDecimals, szDecimals);
    PriceAtScale(x, k, maxDecimals, szDecimals);
    PriceAtScale(y, k, maxDecimals, szDecimals);
    LeqAtScale(x, y, k);
    LeqAtScale(PriceValue(x, maxDecimals, szDecimals), PriceValue(y, maxDecimals, szDecimals), k);
    RoundedPricesOrdered(Lift(x.m, k - x.k), Lift(y.m, k - y.k), k, maxDecimals, szDecimals);
  }

  /** PriceToWire keeps the order of prices. */
  lemma PriceMonotone(x: Dec, y: Dec, maxDecimals: int, szDecimals: int)
    requires Leq(x, y)
    ensures Parse(PriceToWire(x, maxDecimals, szDecimals)).Some? && Parse(PriceToWire(y, maxDecimals, szDecimals)).Some?
    ensures Leq(Parse(PriceToWire(x, maxDecimals, szDecimals)).value,
                Parse(PriceToWire(y, maxDecimals, szDecimals)).value)
  {
    PriceText(x, maxDecimals, szDecimals);
    PriceText(y, maxDecimals, szDecimals);
    CanonicalText(PriceValue(x, maxDecimals, szDecimals));
    CanonicalText(PriceValue(y, maxDecimals, szDecimals));
    PriceValueMonotone(x, y, maxDecimals, szDecimals);
  }

  /** A rounded price is already as round as its own decade asks, also when rounding carried into the next one. */
  lemma RoundedPriceStays(a: nat, k: nat, maxDecimals: int, szDecimals: int)
    requires Places(Dec(a, k), maxDecimals, szDecimals) <= k
    requires Places(Dec(Rounded(a, k - Places(Dec(a, k), maxDecimals, szDecimals)), k), maxDecimals, szDecimals) <= k
    ensures var v := Rounded(a, k - Places(Dec(a, k), maxDecimals, szDecimals));
            Rounded(v, k - Places(Dec(v, k), maxDecimals, szDecimals)) == v
  {
    hide Places, Rounded, Lift, EndsInZeros, Digits;
    var d := Places(Dec(a, k), maxDecimals, szDecimals);
    var v := Rounded(a, k - d);
    var d' := Places(Dec(v, k), maxDecimals, szDecimals);
    RoundedFixed(a, k - d);
    RoundedFixed(v, k - d');
    if v == 0 {
      ZeroEndsInZeros(k - d');
    } else if d <= d' {
      FewerZeros(v, k - d', k - d);
    } else if a == 0 {
      ZeroEndsInZeros(k - d);
    } else if Digits(v) <= Digits(a) {
      PlacesByDecade(v, a, k, maxDecimals, szDecimals);
    } else {
      // v is in a higher decade than a, so it is a power of ten
      PlacesByDecade(a, v, k, maxDecimals, szDecimals);
      if k - d <= Digits(a) {
        CarryToDecade(a, k - d);
        PowerOfTen(Digits(a));
        FewerZeros(v, k - d', Digits(a));
      } else {
        RoundsToOneUnit(a, k - d);
        PowerOfTen(k - d);
      }
    }
  }

  lemma PowerOfTen(t: nat)
    ensures Digits(Lift(1, t)) == t + 1 && EndsInZeros(Lift(1, t), t)
  {
    DigitsLift(1, t);
    LiftThenDrop(1, t);
  }

  /** Rounding that carries into the next decade gives the power of ten where that decade begins. */
  lemma CarryToDecade(a: nat, j: nat)
    requires j <= Digits(a) < Digits(Rounded(a, j))
    ensures Rounded(a, j) == Lift(1, Digits(a))
  {
    var decade := Lift(1, Digits(a));
    DigitsBound(a, Digits(a));
    DigitsBound(Rounded(a, j), Digits(a));
    LiftThenDrop(1, Digits(a));
    FewerZeros(decade, j, Digits(a));
    RoundedFixed(decade, j);
    RoundedOrder(a, decade, j);
  }

  /** A number with all its digits below the kept place rounds to nothing or to one unit of that place. */
  lemma RoundsToOneUnit(a: nat, j: nat)
    requires Digits(a) < j && Rounded(a, j) > 0
    ensures Rounded(a, j) == Lift(1, j)
  {
    DigitsBound(a, j);
    RoundedNearest(a, j);
    LiftSum(0, 0, j);
    if RoundDrop(a, j) >= 2 {
      LiftOrder(2, RoundDrop(a, j), j);
      LiftSum(1, 1, j);
    }
  }

  lemma AgreeAtScale(v: Dec, w: Dec, k: nat)
    requires Canonical(v) && Canonical(w) && v.k + w.k <= k && Lift(v.m, k - v.k) == Lift(w.m, k - w.k)
    ensures v == w
  {
    LeqAtScale(v, w, k);
    LeqAtScale(w, v, k);
    CanonicalUnique(v, w);
  }

  lemma PriceValueStays(x: Dec, v: Dec, k: nat, maxDecimals: int, szDecimals: int)
    requires v == PriceValue(x, maxDecimals, szDecimals)
    requires x.k + Places(x, maxDecimals, szDecimals) <= k && v.k + Places(v, maxDecimals, szDecimals) <= k
    ensures Rounded(Lift(v.m, k - v.k), k - Places(v, maxDecimals, szDecimals)) == Lift(v.m, k - v.k)
  {
    PriceAtScale(x, k, maxDecimals, szDecimals);
    FinerSameWire(v, k - v.k, maxDecimals, szDecimals);
    RoundedPriceStays(Lift(x.m, k - x.k), k, maxDecimals, szDecimals);
  }

  lemma StayingPriceIsFixed(v: Dec, k: nat, maxDecimals: int, szDecimals: int)
    requires Canonical(v) && v.k + Places(v, maxDecimals, szDecimals) <= k
    requires Rounded(Lift(v.m, k - v.k), k - Places(v, maxDecimals, szDecimals)) == Lift(v.m, k - v.k)
    ensures PriceValue(v, maxDecimals, szDecimals) == v
  {
    hide *;
    PriceText(v, maxDecimals, szDecimals);
    PriceAtScale(v, k, maxDecimals, szDecimals);
    AgreeAtScale(v, PriceValue(v, maxDecimals, szDecimals), k);
  }

  lemma PriceValueIdempotent(x: Dec, v: Dec, maxDecimals: int, szDecimals: int)
    requires v == PriceValue(x, maxDecimals, szDecimals)
    ensures PriceValue(v, maxDecimals, szDecimals) == v
  {
    PriceText(x, maxDecimals, szDecimals);
    var k := x.k + v.k + Places(x, maxDecimals, szDecimals) + Places(v, maxDecimals, szDecimals);
    PriceValueStays(x, v, k, maxDecimals, szDecimals);
    StayingPriceIsFixed(v, k, maxDecimals, szDecimals);
  }

  /** Formatting the parsed text again gives the same text. */
  lemma PriceIdempotent(x: Dec, maxDecimals: int, szDecimals: int)
    ensures Parse(PriceToWire(x, maxDecimals, szDecimals)).Some?
    ensures PriceToWire(Parse(PriceToWire(x, maxDecimals, szDecimals)).value, maxDecimals, szDecimals)
         == PriceToWire(x, maxDecimals, szDecimals)
  {
    var v := PriceValue(x, maxDecimals, szDecimals);
    PriceText(x, maxDecimals, szDecimals);
    CanonicalText(v);
    PriceText(v, maxDecimals, szDecimals);
    PriceValueIdempotent(x, v, maxDecimals, szDecimals);
  }

  // ---------------------------------------------------------------- the exchange's rules

  function Plus(x: Dec, y: Dec): Dec { Dec(Lift(x.m, y.k) + Lift(y.m, x.k), x.k + y.k) }

  /** Half of a unit in the `d`-th decimal place. */
  function HalfUnit(d: nat): Dec { Dec(5, d + 1) }

  function SignificantDigits(s: string): nat {
    if Parse(s).None? then 0 else Digits(Parse(s).value.m)
  }

  lemma PlusAtScale(x: Dec, y: Dec, k: nat)
    requires x.k + y.k <= k
    ensures Lift(Plus(x, y).m, k - x.k - y.k) == Lift(x.m, k - x.k) + Lift(y.m, k - y.k)
  {
    hide Lift;
    LiftSum(Lift(x.m, y.k), Lift(y.m, x.k), k - x.k - y.k);
    LiftAdd(x.m, y.k, k - x.k - y.k);
    LiftAdd(y.m, x.k, k - x.k - y.k);
  }

  ghost predicate Within(v: Dec, x: Dec, h: Dec) { Leq(v, Plus(x, h)) && Leq(x, Plus(v, h)) }

  lemma TwoHalves(j: nat)
    ensures 2 * Lift(5, j) == Lift(1, j + 1)
  {
    LiftSum(5, 5, j);
  }

  /** A number rounded at the `d`-th place is within half a unit of that place, and a half is rounded up. */
  lemma RoundedWithin(x: Dec, v: Dec, d: nat, k: nat)
    requires v.k <= d && x.k + 2 * d + 1 <= k
    requires Lift(v.m, k - v.k) == Rounded(Lift(x.m, k - x.k), k - d)
    ensures Within(v, x, HalfUnit(d)) && !Leq(Plus(v, HalfUnit(d)), x)
  {
    hide Lift, Rounded, Leq;
    RoundedNearest(Lift(x.m, k - x.k), k - d);
    TwoHalves(k - d - 1);
    PlusAtScale(x, HalfUnit(d), k);
    PlusAtScale(v, HalfUnit(d), k);
    LeqAtScale(v, Plus(x, HalfUnit(d)), k);
    LeqAtScale(x, Plus(v, HalfUnit(d)), k);
    LeqAtScale(Plus(v, HalfUnit(d)), x, k);
  }

  /** The kept units of a price have at most five digits, or are the sixth power of ten that a carry leaves. */
  lemma UnitsBound(x: Dec, maxDecimals: int, szDecimals: int)
    requires x.m > 0 && AllowedDecimals(x, maxDecimals, szDecimals) > 0
    ensures Units(x, AllowedDecimals(x, maxDecimals, szDecimals)) <= 100000
  {
    var d := AllowedDecimals(x, maxDecimals, szDecimals);
    DigitsBelowOne(x);
    assert Lift(1, 5) == 100000;
    if d >= x.k {
      DigitsLift(x.m, d - x.k);
      DigitsBound(Lift(x.m, d - x.k), 5);
    } else {
      var j := x.k - d;
      DigitsBound(x.m, 5 + j);
      LiftAdd(1, 5, j);
      LiftThenDrop(1, 5 + j);
      FewerZeros(Lift(1, 5 + j), j, 5 + j);
      RoundedFixed(Lift(1, 5 + j), j);
      RoundedOrder(x.m, Lift(1, 5 + j), j);
      LiftOrder(RoundDrop(x.m, j), 100000, j);
    }
  }

  lemma PriceValueRules(x: Dec, maxDecimals: int, szDecimals: int)
    ensures var v, d := PriceValue(x, maxDecimals, szDecimals), Places(x, maxDecimals, szDecimals);
            && Within(v, x, HalfUnit(d)) && !Leq(Plus(v, HalfUnit(d)), x)
            && (v.k > 0 ==> Digits(v.m) <= 5 && v.k <= d <= maxDecimals - szDecimals)
  {
    var v, d := PriceValue(x, maxDecimals, szDecimals), Places(x, maxDecimals, szDecimals);
    PriceAtScale(x, x.k + 2 * d + 1, maxDecimals, szDecimals);
    RoundedWithin(x, v, d, x.k + 2 * d + 1);
    if v.k > 0 {
      ZeroEndsInZeros(x.k);
      UnitsBound(x, maxDecimals, szDecimals);
      CanonSmall(Units(x, d), d);
    }
  }

  lemma CanonSmall(n: nat, d: nat)
    requires n <= 100000 && d > 0
    ensures Digits(Canon(n, d).m) <= 5
  {
    CanonValue(n, d);
    CanonValue(10000, d - 1);
    DigitsBound(Canon(n, d).m, 5);
    assert Lift(1, 5) == 100000;
  }

  /** A price with decimals has at most five significant digits and at most `maxDecimals - szDecimals`
      decimals, and it differs from the price asked for by at most half a unit of the last place kept; a half is
      rounded up. */
  lemma PriceRules(x: Dec, maxDecimals: int, szDecimals: int)
    ensures var s, half := PriceToWire(x, maxDecimals, szDecimals), HalfUnit(Places(x, maxDecimals, szDecimals));
            && Parse(s).Some? && Within(Parse(s).value, x, half) && !Leq(Plus(Parse(s).value, half), x)
            && (Point(s) < |s| ==> SignificantDigits(s) <= 5 && |Decimals(s)| <= maxDecimals - szDecimals)
  {
    PriceText(x, maxDecimals, szDecimals);
    CanonicalText(PriceValue(x, maxDecimals, szDecimals));
    PriceValueRules(x, maxDecimals, szDecimals);
  }

  lemma PriceValueIsUnits(x: Dec, maxDecimals: int, szDecimals: int)
    ensures var v, d := PriceValue(x, maxDecimals, szDecimals), Places(x, maxDecimals, szDecimals);
            Same(v, Dec(Units(x, d), d)) && (IsInteger(x) ==> Same(v, x))
  {
    var v, d := PriceValue(x, maxDecimals, szDecimals), Places(x, maxDecimals, szDecimals);
    var k := x.k + 2 * d;
    PriceAtScale(x, k, maxDecimals, szDecimals);
    FinerSameUnits(x, k - x.k, d);
    assert Lift(v.m, k - v.k) == Lift(Units(x, d), k - d);
    LeqAtScale(v, Dec(Units(x, d), d), k);
    LeqAtScale(Dec(Units(x, d), d), v, k);
    DropThenLift(x.m, x.k);
  }

  /** The price text is a wire number of exactly the rounded value, with all integer digits kept. */
  lemma PricePrintsAndParses(x: Dec, maxDecimals: int, szDecimals: int)
    ensures var s, d := PriceToWire(x, maxDecimals, szDecimals), Places(x, maxDecimals, szDecimals);
            && IsWireNumber(s) && Parse(s).Some?
            && Same(Parse(s).value, Dec(Units(x, d), d))
            && Whole(s) == ShowNat(Truncated(Parse(s).value))
            && (IsInteger(x) ==> Same(Parse(s).value, x))
  {
    PriceText(x, maxDecimals, szDecimals);
    CanonicalText(PriceValue(x, maxDecimals, szDecimals));
    PriceValueIsUnits(x, maxDecimals, szDecimals);
  }

  lemma {:induction false} FinerSameUnits(x: Dec, j: nat, d: nat)
    ensures Units(Finer(x, j), d) == Units(x, d)
    decreases j
  {
    if j > 0 {
      assert Units(Dec(10 * x.m, x.k + 1), d) == Units(x, d);
      FinerSameUnits(Dec(10 * x.m, x.k + 1), j - 1, d);
    }
  }

  /** Prices with equal wire values have equal texts. */
  lemma EqualValuesEqualText(x: Dec, y: Dec, maxDecimals: int, szDecimals: int)
    requires Same(PriceValue(x, maxDecimals, szDecimals), PriceValue(y, maxDecimals, szDecimals))
    ensures PriceToWire(x, maxDecimals, szDecimals) == PriceToWire(y, maxDecimals, szDecimals)
  {
    PriceText(x, maxDecimals, szDecimals);
    PriceText(y, maxDecimals, szDecimals);
    CanonicalUnique(PriceValue(x, maxDecimals, szDecimals), PriceValue(y, maxDecimals, szDecimals));
  }

  // ---------------------------------------------------------------- sizes

  /** The number that a size is rounded to. */
  function SizeValue(x: Dec, szDecimals: int): Dec {
    if szDecimals == 0 || IsInteger(x) then Dec(Truncated(x), 0)
    else Canon(Units(x, SizePlaces(szDecimals)), SizePlaces(szDecimals))
  }

  /** The trimming eats into the integer itself: the precision is negative, and the rounded size ends in 0. */
  predicate EatsDigits(x: Dec, szDecimals: int) { szDecimals < 0 && !IsInteger(x) && Units(x, 0) % 10 == 0 }

  lemma CanonStep(n: nat)
    requires n > 0
    ensures Canon(n, Digits(n)) == if n % 10 == 0 then Canon(n / 10, Digits(n / 10)) else Dec(n, Digits(n))
  {
  }

  lemma ShowNatStep(n: nat)
    ensures ShowNat(n) == (if n >= 10 then ShowNat(n / 10) else "") + [Digit(n % 10)]
  {
  }

  lemma {:induction false} TrimWhole(n: nat)
    ensures TrimRight(ShowNat(n), '0') == if n == 0 then "" else ShowNat(Canon(n, Digits(n)).m)
    decreases n
  {
    hide ShowNat, Canon, Digits;
    ShowNatStep(n);
    TrimRightEnd(if n >= 10 then ShowNat(n / 10) else "", '0', Digit(n % 10));
    if n > 0 {
      CanonStep(n);
      if n >= 10 {
        TrimWhole(n / 10);
      }
    }
  }

  /** Digits hold no point to trim. */
  lemma TrimDigits(n: nat)
    ensures TrimRight(TrimRight(ShowNat(n), '0'), '.') == TrimRight(ShowNat(n), '0')
  {
    hide ShowNat, Canon, Digits;
    TrimWhole(n);
    if n > 0 {
      var t := ShowNat(Canon(n, Digits(n)).m);
      ShowNatDigits(Canon(n, Digits(n)).m);
      assert IsDigit(t[|t| - 1]);
    }
  }

  lemma SizeText(x: Dec, szDecimals: int)
    requires !EatsDigits(x, szDecimals)
    ensures Canonical(SizeValue(x, szDecimals)) && SizeValue(x, szDecimals).k <= SizePlaces(szDecimals)
    ensures SizeToWire(x, szDecimals) == FormatFixed(SizeValue(x, szDecimals).m, SizeValue(x, szDecimals).k)
  {
    var d := SizePlaces(szDecimals);
    if szDecimals != 0 && !IsInteger(x) {
      CanonValue(Units(x, d), d);
      if d > 0 {
        LastOfFormat(Units(x, d), d);
        TrimFormat(Units(x, d), d);
      } else {
        WholeWithoutZero(Units(x, 0));
      }
    }
  }

  lemma WholeWithoutZero(n: nat)
    requires n % 10 != 0
    ensures TrimRight(TrimRight(ShowNat(n), '0'), '.') == ShowNat(n)
  {
    hide ShowNat, Canon, Digits, TrimRight;
    TrimWhole(n);
    TrimDigits(n);
    CanonStep(n);
  }

  lemma FewerDigits(n: nat)
    requires n > 0 && n % 10 == 0
    ensures Canon(n, Digits(n)).m < n
  {
    CanonValue(n / 10, Digits(n / 10));
    assert Canon(n / 10, Digits(n / 10)).m <= n / 10;
  }

  lemma {:induction false} LastDigitOf(n: nat, d: nat)
    requires n > 0 && d >= Digits(n)
    ensures Canon(n, d).m % 10 != 0
  {
    if n % 10 == 0 {
      LastDigitOf(n / 10, d - 1);
    }
  }

  lemma EatenText(x: Dec, szDecimals: int)
    requires EatsDigits(x, szDecimals)
    ensures SizeToWire(x, szDecimals) == TrimRight(ShowNat(Units(x, 0)), '0')
    ensures SizeValue(x, szDecimals) == Dec(Units(x, 0), 0)
  {
    hide ShowNat, TrimRight;
    TrimDigits(Units(x, 0));
    assert FormatFixed(Units(x, 0), 0) == ShowNat(Units(x, 0));
  }

  /** The text of a size stands for the rounded size unless the trimming eats digits of the integer.  In that case
      it is empty, or the text of a smaller number: the rounded size without all its zeros at the end. */
  lemma SizeTextIff(x: Dec, szDecimals: int)
    ensures var s, n := SizeToWire(x, szDecimals), Units(x, 0);
            && (Parse(s) == Some(SizeValue(x, szDecimals)) <==> !EatsDigits(x, szDecimals))
            && (EatsDigits(x, szDecimals) && n == 0 ==> s == "" && Parse(s) == None)
            && (EatsDigits(x, szDecimals) && n > 0 ==>
                  && Parse(s) == Some(Dec(Canon(n, Digits(n)).m, 0))
                  && Canon(n, Digits(n)).m < n && Canon(n, Digits(n)).m % 10 != 0)
  {
    if EatsDigits(x, szDecimals) {
      var n := Units(x, 0);
      EatenText(x, szDecimals);
      TrimWhole(n);
      hide SizeToWire, SizeValue, Canon, Digits, ShowNat, TrimRight, Units;
      if n > 0 {
        var m := Canon(n, Digits(n)).m;
        FewerDigits(n);
        LastDigitOf(n, Digits(n));
        ParseFormat(m, 0);
        assert FormatFixed(m, 0) == ShowNat(m);
      } else {
        assert Parse("") == None;
      }
    } else {
      SizeText(x, szDecimals);
      ParseFormat(SizeValue(x, szDecimals).m, SizeValue(x, szDecimals).k);
    }
  }

  /** With precision -1 the size 99.7 is sent as "1", and the size 0.3 as nothing. */
  lemma NegativePrecision()
    ensures SizeToWire(Dec(997, 1), -1) == "1" && SizeToWire(Dec(3, 1), -1) == ""
  {
    assert Units(Dec(997, 1), 0) == 100 && Units(Dec(3, 1), 0) == 0;
    EatenText(Dec(997, 1), -1);
    EatenText(Dec(3, 1), -1);
    TrimWhole(0);
    TrimRightEnd("10", '0', '0');
    TrimRightEnd("1", '0', '0');
    TrimRightEnd("", '0', '1');
  }

  lemma SizeAtScale(x: Dec, szDecimals: int, k: nat)
    requires szDecimals != 0 && x.k + SizePlaces(szDecimals) <= k
    ensures SizeValue(x, szDecimals).k <= SizePlaces(szDecimals)
    ensures Lift(SizeValue(x, szDecimals).m, k - SizeValue(x, szDecimals).k)
         == Rounded(Lift(x.m, k - x.k), k - SizePlaces(szDecimals))
  {
    var v, d := SizeValue(x, szDecimals), SizePlaces(szDecimals);
    hide Lift, Drop, Canon, EndsInZeros;
    if IsInteger(x) {
      DropThenLift(x.m, x.k);
      LiftAdd(v.m, x.k, k - x.k);
      LiftZeros(x.m, x.k, k - x.k);
      FewerZeros(Lift(x.m, k - x.k), k - d, k);
      RoundedFixed(Lift(x.m, k - x.k), k - d);
    } else {
      CanonValue(Units(x, d), d);
      FinerSameUnits(x, k - x.k, d);
      LiftAdd(v.m, d - v.k, k - d);
    }
  }

  /** Cutting off the decimals gives the largest integer that is not above the number. */
  lemma CutOff(x: Dec, q: nat)
    requires Lift(q, x.k) <= x.m < Lift(q + 1, x.k)
    ensures Leq(Dec(q, 0), x) && !Leq(Plus(Dec(q, 0), Dec(1, 0)), x)
    ensures Lift(q, x.k) == x.m ==> Same(Dec(q, 0), x)
  {
    assert Lift(x.m, 0) == x.m && Lift(q, 0) == q && Lift(1, 0) == 1;
  }

  lemma SizeValueNearest(x: Dec, szDecimals: int)
    ensures IsInteger(x) ==> Same(SizeValue(x, szDecimals), x)
    ensures szDecimals != 0 ==>
              && Within(SizeValue(x, szDecimals), x, HalfUnit(SizePlaces(szDecimals)))
              && !Leq(Plus(SizeValue(x, szDecimals), HalfUnit(SizePlaces(szDecimals))), x)
    ensures szDecimals == 0 ==> Leq(SizeValue(x, 0), x) && !Leq(Plus(SizeValue(x, 0), Dec(1, 0)), x)
  {
    hide Same, Within, Leq, Lift, Rounded, Drop, EndsInZeros, Canon, Units, Plus;
    DropThenLift(x.m, x.k);
    CutOff(x, Truncated(x));
    if szDecimals != 0 {
      var d := SizePlaces(szDecimals);
      SizeAtScale(x, szDecimals, x.k + 2 * d + 1);
      RoundedWithin(x, SizeValue(x, szDecimals), d, x.k + 2 * d + 1);
    }
  }

  /** A size is rounded to the nearest value with `szDecimals` places, or to the nearest integer for a negative
      precision, a half upwards, except that for none it is cut off; the text says that value unless digits are eaten.
      */
  lemma SizePrintsAndParses(x: Dec, szDecimals: int)
    ensures var half := HalfUnit(if szDecimals > 0 then szDecimals else 0);
            szDecimals != 0 ==>
              Within(SizeValue(x, szDecimals), x, half) && !Leq(Plus(SizeValue(x, szDecimals), half), x)
    ensures szDecimals == 0 ==> Leq(SizeValue(x, 0), x) && !Leq(Plus(SizeValue(x, 0), Dec(1, 0)), x)
    ensures IsInteger(x) ==> Same(SizeValue(x, szDecimals), x)
    ensures var s := SizeToWire(x, szDecimals);
            !EatsDigits(x, szDecimals) ==>
              && IsWireNumber(s) && Parse(s) == Some(SizeValue(x, szDecimals))
              && (szDecimals > 0 ==> |Decimals(s)| <= szDecimals) && (szDecimals <= 0 ==> Point(s) == |s|)
              && Whole(s) == ShowNat(Truncated(Parse(s).value))
  {
    SizeValueNearest(x, szDecimals);
    if !EatsDigits(x, szDecimals) {
      SizeText(x, szDecimals);
      CanonicalText(SizeValue(x, szDecimals));
      SizeTextIff(x, szDecimals);
    }
  }

  // ---------------------------------------------------------------- slippage

  /** `m` divided by ten to the power `j`, rounded to the nearest integer with halves to even. */
  function RoundHalfEven(m: nat, j: nat): nat {
    if j == 0 then m
    else
      var q := Drop(m, j);
      var rest, half := m - Lift(q, j), Lift(5, j - 1);
      if rest > half || (rest == half && q % 2 == 1) then q + 1 else q
  }

  /** A number printed with five significant digits and read back. */
  function FiveSignificant(p: Dec): Dec {
    if Digits(p.m) <= 5 then p else Dec(Lift(RoundHalfEven(p.m, Digits(p.m) - 5), Digits(p.m) - 5), p.k)
  }

  /** The price moved by `slip / 10^slipPlaces` upwards for a buy and downwards for a sell. */
  function SlippedPrice(isBuy: bool, px: Dec, slip: int, slipPlaces: nat): Dec
    requires Lift(1, slipPlaces) + (if isBuy then slip else -slip) >= 0
  {
    Dec(px.m * (Lift(1, slipPlaces) + if isBuy then slip else -slip), px.k + slipPlaces)
  }

  function CalculateSlippage(isBuy: bool, px: Dec, slip: int, slipPlaces: nat): Dec
    requires Lift(1, slipPlaces) + (if isBuy then slip else -slip) >= 0
  {
    FiveSignificant(SlippedPrice(isBuy, px, slip, slipPlaces))
  }

  /** Rounding half to even is nearest, and it keeps five-digit results within the next power of ten. */
  lemma RoundHalfEvenNearest(m: nat, j: nat)
    ensures 2 * Lift(RoundHalfEven(m, j), j) <= 2 * m + Lift(1, j)
    ensures 2 * m <= 2 * Lift(RoundHalfEven(m, j), j) + Lift(1, j)
    ensures Drop(m, j) <= RoundHalfEven(m, j) <= Drop(m, j) + 1
  {
    if j > 0 {
      var q := Drop(m, j);
      DropThenLift(m, j);
      LiftSum(q, 1, j);
      LiftSum(5, 5, j - 1);
    }
  }

  /** A number halfway between two gets the even one. */
  lemma HalfGoesToEven(m: nat, j: nat)
    requires j > 0 && 2 * (m - Lift(Drop(m, j), j)) == Lift(1, j)
    ensures RoundHalfEven(m, j) % 2 == 0
  {
    LiftSum(5, 5, j - 1);
  }

  lemma RoundHalfEvenOrder(a: nat, b: nat, j: nat)
    requires a <= b
    ensures RoundHalfEven(a, j) <= RoundHalfEven(b, j)
  {
    DropOrder(a, b, j);
    RoundHalfEvenNearest(a, j);
    RoundHalfEvenNearest(b, j);
    if j > 0 {
      DropThenLift(a, j);
      DropThenLift(b, j);
    }
  }

  /** A number with five significant digits stays in its decade, or is the next power of ten. */
  lemma FiveSignificantRange(m: nat, k: nat)
    requires m > 0
    ensures Lift(1, Digits(m) - 1) <= FiveSignificant(Dec(m, k)).m <= Lift(1, Digits(m))
  {
    DigitsBound(m, Digits(m));
    DigitsBound(m, Digits(m) - 1);
    if Digits(m) > 5 {
      FiveRoundedRange(m, Digits(m) - 5);
    }
  }

  lemma FiveRoundedRange(m: nat, j: nat)
    requires Lift(1, j + 4) <= m < Lift(1, j + 5)
    ensures Lift(1, j + 4) <= Lift(RoundHalfEven(m, j), j) <= Lift(1, j + 5)
  {
    assert Lift(1, 5) == 100000 && Lift(1, 4) == 10000;
    hide Lift, RoundHalfEven, Drop;
    RoundHalfEvenNearest(m, j);
    DropThenLift(m, j);
    LiftAdd(1, 5, j);
    LiftAdd(1, 4, j);
    LiftOrder(100000, Drop(m, j), j);
    LiftOrder(Drop(m, j) + 1, 10000, j);
    LiftOrder(RoundHalfEven(m, j), 100000, j);
    LiftOrder(10000, RoundHalfEven(m, j), j);
  }

  /** Rounding to five significant digits keeps the order, also from one decade to the next. */
  lemma FiveSignificantOrder(a: nat, b: nat, k: nat)
    requires a <= b
    ensures FiveSignificant(Dec(a, k)).m <= FiveSignificant(Dec(b, k)).m
  {
    DigitsOrder(a, b);
    if a == 0 {
      assert FiveSignificant(Dec(0, k)).m == 0;
    } else if Digits(a) < Digits(b) {
      hide FiveSignificant, Lift, Digits;
      FiveSignificantRange(a, k);
      FiveSignificantRange(b, k);
      LiftAdd(1, Digits(a), Digits(b) - 1 - Digits(a));
    } else {
      SameDecadeOrder(a, b, k);
    }
  }

  lemma SameDecadeOrder(a: nat, b: nat, k: nat)
    requires a <= b && Digits(a) == Digits(b)
    ensures FiveSignificant(Dec(a, k)).m <= FiveSignificant(Dec(b, k)).m
  {
    hide RoundHalfEven, Lift, Digits;
    if Digits(a) > 5 {
      var j := Digits(a) - 5;
      RoundHalfEvenOrder(a, b, j);
      LiftOrder(RoundHalfEven(a, j), RoundHalfEven(b, j), j);
    }
  }

  /** The slippage price is the price times one plus or minus the slippage, to within half a unit of the fifth
      significant digit of that product, and it is the product itself if that has at most five digits. */
  lemma SlippageIsNear(isBuy: bool, px: Dec, slip: int, slipPlaces: nat)
    requires Lift(1, slipPlaces) + (if isBuy then slip else -slip) >= 0
    ensures var p, r := px.m * (Lift(1, slipPlaces) + if isBuy then slip else -slip),
                CalculateSlippage(isBuy, px, slip, slipPlaces);
            && r.k == px.k + slipPlaces
            && (Digits(p) <= 5 ==> r.m == p)
            && (Digits(p) > 5 ==>
                  2 * r.m <= 2 * p + Lift(1, Digits(p) - 5) && 2 * p <= 2 * r.m + Lift(1, Digits(p) - 5))
  {
    var p := SlippedPrice(isBuy, px, slip, slipPlaces).m;
    if Digits(p) > 5 {
      RoundHalfEvenNearest(p, Digits(p) - 5);
    }
  }

  /** With a slippage that is not negative a sell never goes out above a buy, nor a buy below the price with five
      significant digits, nor a sell above it. */
  lemma SellIsNotAboveBuy(px: Dec, slip: nat, slipPlaces: nat)
    requires slip <= Lift(1, slipPlaces)
    ensures var buy, sell := CalculateSlippage(true, px, slip, slipPlaces),
              CalculateSlippage(false, px, slip, slipPlaces);
            var price := CalculateSlippage(true, px, 0, slipPlaces);
            buy.k == sell.k == price.k && sell.m <= price.m <= buy.m && Leq(sell, buy)
  {
    var one, k := Lift(1, slipPlaces), px.k + slipPlaces;
    FactorOrder(px.m, one - slip, one, k);
    FactorOrder(px.m, one, one + slip, k);
    FactorOrder(px.m, one - slip, one + slip, k);
    SlippageIs(px, slip, slipPlaces);
    SlippageIs(px, 0, slipPlaces);
    hide *;
  }

  lemma SlippageIs(px: Dec, slip: nat, slipPlaces: nat)
    requires slip <= Lift(1, slipPlaces)
    ensures var one, k := Lift(1, slipPlaces), px.k + slipPlaces;
            && CalculateSlippage(true, px, slip, slipPlaces) == FiveSignificant(Dec(px.m * (one + slip), k))
            && CalculateSlippage(false, px, slip, slipPlaces) == FiveSignificant(Dec(px.m * (one - slip), k))
  {
    hide FiveSignificant, Lift;
  }

  lemma FactorOrder(m: nat, f: nat, g: nat, k: nat)
    requires f <= g
    ensures var x, y := FiveSignificant(Dec(m * f, k)), FiveSignificant(Dec(m * g, k));
            x.k == k && y.k == k && x.m <= y.m && Leq(x, y)
  {
    SamePlaces(Dec(m * f, k));
    SamePlaces(Dec(m * g, k));
    hide FiveSignificant, Lift;
    Scaled(m, f, g);
    FiveSignificantOrder(m * f, m * g, k);
    LiftOrder(FiveSignificant(Dec(m * f, k)).m, FiveSignificant(Dec(m * g, k)).m, k);
  }

  lemma SamePlaces(p: Dec)
    ensures FiveSignificant(p).k == p.k
  {
  }

  lemma Scaled(m: nat, a: nat, b: nat)
    requires a <= b
    ensures m * a <= m * b
  {
  }

  /** After rounding to five significant digits all further digits are zeros, also after a carry. */
  lemma FiveSignificantZeros(p: Dec)
    ensures Digits(FiveSignificant(p).m) <= 5 || EndsInZeros(FiveSignificant(p).m, Digits(FiveSignificant(p).m) - 5)
  {
    var n := Digits(p.m);
    if n > 5 {
      var j := n - 5;
      var c := RoundHalfEven(p.m, j);
      RoundHalfEvenNearest(p.m, j);
      DigitsBound(p.m, n);
      DropThenLift(p.m, j);
      LiftAdd(1, 5, j);
      assert Lift(1, 5) == 100000;
      LiftOrder(100000, Drop(p.m, j), j);
      assert c <= 100000;
      LiftThenDrop(c, j);
      if c == 100000 {
        DigitsLift(1, n);
        LiftThenDrop(1, n);
        FewerZeros(Lift(c, j), n - 4, n);
      } else if c > 0 {
        DigitsLift(c, j);
        DigitsBound(c, 5);
        if Digits(c) + j > 5 {
          FewerZeros(Lift(c, j), Digits(c) + j - 5, j);
        }
      } else {
        LiftSum(0, 0, j);
      }
    }
  }

  /** A price with at most five significant digits has no digit below its last significant place. */
  lemma FiveDigitsFit(r: Dec, d: nat)
    requires r.m > 0 && SignificantDecimals(r) <= d
    requires Digits(r.m) <= 5 || EndsInZeros(r.m, Digits(r.m) - 5)
    ensures d < r.k ==> EndsInZeros(r.m, r.k - d)
  {
    DigitsBelowOne(r);
    if d < r.k {
      FewerZeros(r.m, r.k - d, if Digits(r.m) <= 5 then 0 else Digits(r.m) - 5);
    }
  }

  /** A number without digits below the `d`-th place is not changed by rounding to it. */
  lemma UnitsExact(r: Dec, d: nat)
    requires d < r.k ==> EndsInZeros(r.m, r.k - d)
    ensures Same(Dec(Units(r, d), d), r)
  {
    if d >= r.k {
      LiftAdd(r.m, d - r.k, r.k);
    } else {
      RoundedFixed(r.m, r.k - d);
      LiftAdd(RoundDrop(r.m, r.k - d), r.k - d, d);
    }
  }

  function Tick(maxDecimals: int, szDecimals: int): nat {
    if maxDecimals > szDecimals then maxDecimals - szDecimals else 0
  }

  /** For a price with five significant digits the kept places and the tick alone give the same number. */
  lemma TickAlone(r: Dec, maxDecimals: int, szDecimals: int)
    requires Digits(r.m) <= 5 || EndsInZeros(r.m, Digits(r.m) - 5)
    ensures Same(Dec(Units(r, Places(r, maxDecimals, szDecimals)), Places(r, maxDecimals, szDecimals)),
                 Dec(Units(r, Tick(maxDecimals, szDecimals)), Tick(maxDecimals, szDecimals)))
  {
    var d, tick := Places(r, maxDecimals, szDecimals), Tick(maxDecimals, szDecimals);
    if d != tick {
      if r.m > 0 {
        FiveDigitsFit(r, d);
        FiveDigitsFit(r, tick);
      } else {
        ZeroEndsInZeros(r.k);
        FewerZeros(0, if tick < r.k then r.k - tick else 0, r.k);
      }
      UnitsExact(r, d);
      UnitsExact(r, tick);
      SameTransitive(Dec(Units(r, d), d), r, Dec(Units(r, tick), tick));
    }
  }

  lemma FiveSignificantThenWire(p: Dec, r: Dec, maxDecimals: int, szDecimals: int)
    requires r == FiveSignificant(p)
    ensures var s, tick := PriceToWire(r, maxDecimals, szDecimals), Tick(maxDecimals, szDecimals);
            Parse(s).Some? && Same(Parse(s).value, Dec(Units(r, tick), tick))
  {
    var tick, d := Tick(maxDecimals, szDecimals), Places(r, maxDecimals, szDecimals);
    FiveSignificantZeros(p);
    PricePrintsAndParses(r, maxDecimals, szDecimals);
    TickAlone(r, maxDecimals, szDecimals);
    SameTransitive(Parse(PriceToWire(r, maxDecimals, szDecimals)).value, Dec(Units(r, d), d),
                   Dec(Units(r, tick), tick));
  }

  /** Five significant digits are left by CalculateSlippage, so PriceToWire of its result is the result
      rounded to the tick alone: the significant-figure rule never changes it a second time. */
  lemma SlippageThenWire(isBuy: bool, px: Dec, slip: int, slipPlaces: nat, maxDecimals: int, szDecimals: int)
    requires Lift(1, slipPlaces) + (if isBuy then slip else -slip) >= 0
    ensures var r, tick := CalculateSlippage(isBuy, px, slip, slipPlaces), Tick(maxDecimals, szDecimals);
            var s := PriceToWire(r, maxDecimals, szDecimals);
            Parse(s).Some? && Same(Parse(s).value, Dec(Units(r, tick), tick))
  {
    var r := CalculateSlippage(isBuy, px, slip, slipPlaces);
    FiveSignificantThenWire(SlippedPrice(isBuy, px, slip, slipPlaces), r, maxDecimals, szDecimals);
  }

  lemma SameTransitive(x: Dec, y: Dec, z: Dec)
    requires Same(x, y) && Same(y, z)
    ensures Same(x, z)
  {
    var k := x.k + y.k + z.k;
    LeqAtScale(x, y, k);
    LeqAtScale(y, x, k);
    LeqAtScale(y, z, k);
    LeqAtScale(z, y, k);
    LeqAtScale(x, z, k);
    LeqAtScale(z, x, k);
  }

  // ---------------------------------------------------------------- the loops of the source

  /** The power of ten by repeated multiplication; no iteration for an exponent that is not positive. */
  method Pow10(exp: int) returns (res: nat)
    ensures res == Lift(1, if exp > 0 then exp else 0)
  {
    res := 1;
    var i := 0;
    while i < exp
      invariant 0 <= i && (i <= exp || i == 0)
      invariant res == Lift(1, i)
    {
      LiftAdd(1, i, 0);
      res := res * 10;
      i := i + 1;
    }
  }

  /** Multiplying by the factor that `Pow10` computes shifts the number by that many places. */
  lemma {:induction false} LiftIsProduct(m: nat, j: nat)
    ensures Lift(m, j) == m * Lift(1, j)
    decreases j
  {
    if j > 0 {
      LiftIsProduct(10 * m, j - 1);
      LiftAdd(1, j - 1, 0);
      Associate(m, Lift(1, j - 1));
    }
  }

  lemma Associate(m: nat, p: nat)
    ensures (10 * m) * p == m * (10 * p)
  {
  }

  function TrimPoint(s: string): string {
    if |s| > 0 && s[|s| - 1] == '.' then s[..|s| - 1] else s
  }

  /** The trimming loop of FloatToWire.  On a fixed-point text it leaves the shortest text of the same value. */
  method TrimLoop(s: string) returns (rounded: string)
    ensures rounded == TrimPoint(if '.' in s then TrimRight(s, '0') else s)
    ensures forall n: nat, d: nat :: s == FormatFixed(n, d) ==> rounded == FormatFixed(Canon(n, d).m, Canon(n, d).k)
  {
    rounded := s;
    if '.' in rounded {
      while |rounded| > 0 && rounded[|rounded| - 1] == '0'
        invariant TrimRight(rounded, '0') == TrimRight(s, '0')
      {
        rounded := rounded[..|rounded| - 1];
      }
    }
    if |rounded| > 0 && rounded[|rounded| - 1] == '.' {
      rounded := rounded[..|rounded| - 1];
    }
    forall n: nat, d: nat | s == FormatFixed(n, d)
      ensures rounded == FormatFixed(Canon(n, d).m, Canon(n, d).k)
    {
      TrimLoopOnFixed(n, d);
    }
  }

  lemma TrimRightPrefix(s: string, c: char)
    ensures |TrimRight(s, c)| <= |s| && TrimRight(s, c) == s[..|TrimRight(s, c)|]
  {
  }

  lemma OnePoint(t: string)
    requires |t| > 1 && t[|t| - 1] == '.' ==> t[|t| - 2] != '.'
    ensures TrimPoint(t) == TrimRight(t, '.')
  {
  }

  /** A fixed-point text has one point, so cutting one point and cutting all points come to the same. */
  lemma TrimLoopOnFixed(n: nat, d: nat)
    ensures TrimPoint(if '.' in FormatFixed(n, d) then TrimRight(FormatFixed(n, d), '0') else FormatFixed(n, d))
         == FormatFixed(Canon(n, d).m, Canon(n, d).k)
  {
    var s, whole := FormatFixed(n, d), ShowNat(Drop(n, d));
    var t := if '.' in s then TrimRight(s, '0') else s;
    ShowNatDigits(Drop(n, d));
    FractionIsDigits(n, d);
    TrimFormat(n, d);
    TrimRightPrefix(s, '0');
    hide ShowNat, Fraction, TrimRight, Drop, Canon;
    assert forall i :: 0 <= i < |s| && s[i] == '.' ==> i == |whole| by {
      assert s == whole + if d == 0 then "" else "." + Fraction(n, d);
      assert forall i :: 0 <= i < |whole| ==> IsDigit(s[i]);
      assert forall i :: 0 <= i < d ==> IsDigit(Fraction(n, d)[i]);
    }
    OnePoint(t);
    if '.' !in s {
      assert TrimPoint(t) == s;
    }
  }
}
