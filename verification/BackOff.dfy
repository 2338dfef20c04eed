/**
 The exponential back-off of controllers/helper/status.go. Powers of e are exact reals (rounding of floats is
 not modelled); the conversion to an int64 number of nanoseconds truncates, and outside the int64 range it
 yields some machine-dependent value that is either above the cap or not positive.
 */
module BackOff {
  const SECOND := 1_000_000_000
  const TIME_OUT := SECOND
  const MAX_TIME_OUT := 3600 * SECOND
  const TWO_63 := 0x8000_0000_0000_0000

  type int64 = x: int | -0x8000_0000_0000_0000 <= x < 0x8000_0000_0000_0000

  predicate IsE(e: real) {
    2.718281828 < e < 2.718281829
  }

  predicate IsOverflowValue(v: int64) {
    v > MAX_TIME_OUT || v <= 0
  }

  /** int64 addition wraps around. */
  function Increment(n: int64): (r: int64)
    ensures r == if n == TWO_63 - 1 then -TWO_63 else n + 1
  {
    if n + 1 < TWO_63 then n + 1 else n + 1 - 2 * TWO_63
  }

  /** The real product under a name, so that proofs can use its laws without the solver expanding it. */
  function Times(a: real, b: real): real {
    a * b
  }

  function Pow(e: real, n: int): (r: real)
    requires e > 0.0
    ensures r > 0.0
    decreases if n < 0 then -n else n
  {
    if n == 0 then 1.0
    else if n > 0 then
      PositiveProduct(e, Pow(e, n - 1));
      Times(e, Pow(e, n - 1))
    else Pow(e, n + 1) / e
  }

  function ToNanoseconds(x: real, overflow: int64): int64
    requires x >= 0.0
  {
    if x < TWO_63 as real then x.Floor else overflow
  }

  function RawTimeout(factor: int64, e: real, overflow: int64): int64
    requires IsE(e)
  {
    PositiveProduct(TIME_OUT as real, Pow(e, Increment(factor)));
    ToNanoseconds(TIME_OUT as real * Pow(e, Increment(factor)), overflow)
  }

  function GetTimeout(factor: int64, e: real, overflow: int64): (timeout: int)
    requires IsE(e)
    ensures 0 < timeout <= MAX_TIME_OUT
  {
    var expTimeout := RawTimeout(factor, e, overflow);
    if expTimeout > MAX_TIME_OUT || expTimeout <= 0 then MAX_TIME_OUT else expTimeout
  }

  // ---------- Powers of e ----------

  lemma PositiveProduct(a: real, b: real)
    requires a > 0.0 && b > 0.0
    ensures Times(a, b) > 0.0
  {
  }

  lemma TimesLaws(a: real, b: real, c: real)
    ensures Times(a, b) == Times(b, a)
    ensures Times(1.0, a) == a
    ensures Times(a, Times(b, c)) == Times(Times(a, b), c)
    ensures Times(a + b, c) == Times(a, c) + Times(b, c)
    ensures Times(a - b, c) == Times(a, c) - Times(b, c)
  {
  }

  lemma TimesMono(a: real, b: real, c: real)
    requires a <= b && c > 0.0
    ensures Times(a, c) <= Times(b, c)
  {
  }

  lemma ProductBounds(a: real, la: real, ua: real, b: real, lb: real, ub: real)
    requires 0.0 < la <= a <= ua && 0.0 < lb <= b <= ub
    ensures la * lb <= Times(a, b) <= ua * ub
  {
    assert la * lb == Times(la, lb) && ua * ub == Times(ua, ub);
    hide Times;
    TimesMono(la, a, lb);
    TimesMono(lb, b, a);
    TimesMono(a, ua, b);
    TimesMono(b, ub, ua);
    TimesLaws(a, b, b);
    TimesLaws(a, lb, lb);
    TimesLaws(ua, b, b);
    TimesLaws(ua, ub, ub);
  }

  lemma {:induction false} PowAdd(e: real, m: nat, n: nat)
    requires e > 0.0
    ensures Pow(e, m + n) == Times(Pow(e, m), Pow(e, n))
  {
    hide Times;
    TimesLaws(Pow(e, n), 0.0, 0.0);
    if m > 0 {
      PowAdd(e, m - 1, n);
      assert m - 1 + n == m + n - 1;
      TimesLaws(e, Pow(e, m - 1), Pow(e, n));
    }
  }

  lemma {:induction false} PowInverse(e: real, n: nat)
    requires e > 0.0
    ensures Times(Pow(e, n), Pow(e, 0 - n)) == 1.0
  {
    if n > 0 {
      PowInverse(e, n - 1);
      PowStep(e, 0 - n);
      hide Times;
      var p, d := Pow(e, n - 1), Pow(e, 0 - n);
      assert Pow(e, n) == Times(e, p) && Pow(e, 1 - n) == Times(e, d);
      TimesLaws(p, e, d);
    }
  }

  lemma PowStep(e: real, n: int)
    requires e > 0.0
    ensures Pow(e, n + 1) == Times(e, Pow(e, n))
  {
    if n < 0 {
      var q := Pow(e, n + 1);
      assert Pow(e, n) == q / e;
      assert e * (q / e) == q;
    }
  }

  lemma {:induction false} PowMonotone(e: real, m: int, n: int)
    requires e > 1.0 && m <= n
    ensures Pow(e, m) <= Pow(e, n)
    decreases n - m
  {
    hide Pow, Times;
    if m < n {
      PowMonotone(e, m, n - 1);
      PowStep(e, n - 1);
      assert n - 1 + 1 == n;
      TimesMono(1.0, e, Pow(e, n - 1));
      TimesLaws(Pow(e, n - 1), 0.0, 0.0);
    }
  }

  /** Decimal bounds on the powers that decide where the cap starts and where the result rounds to zero. */
  lemma PowBounds(e: real)
    requires IsE(e)
    ensures 2980.0 < Pow(e, 8) < 2981.0
    ensures 8100.0 < Pow(e, 9)
    ensures 0.0 < Pow(e, 20) < 500000000.0
    ensures 1300000000.0 < Pow(e, 21)
  {
    TimesLaws(e, 0.0, 0.0);
    assert Pow(e, 1) == e;
    hide Pow, Times;
    PowAdd(e, 1, 1);
    ProductBounds(e, 2.71828, 2.71829, e, 2.71828, 2.71829);
    assert 7.38904 < Pow(e, 2) < 7.38911;
    PowAdd(e, 2, 2);
    ProductBounds(Pow(e, 2), 7.38904, 7.38911, Pow(e, 2), 7.38904, 7.38911);
    assert 54.597 < Pow(e, 4) < 54.599;
    PowAdd(e, 4, 4);
    ProductBounds(Pow(e, 4), 54.597, 54.599, Pow(e, 4), 54.597, 54.599);
    PowAdd(e, 8, 1);
    ProductBounds(Pow(e, 8), 2980.0, 2981.1, e, 2.71828, 2.71829);
    PowAdd(e, 8, 8);
    ProductBounds(Pow(e, 8), 2980.0, 2981.1, Pow(e, 8), 2980.0, 2981.1);
    PowAdd(e, 16, 4);
    ProductBounds(Pow(e, 16), 8880000.0, 8890000.0, Pow(e, 4), 54.597, 54.599);
    PowAdd(e, 20, 1);
    ProductBounds(Pow(e, 20), 484800000.0, 485500000.0, e, 2.71828, 2.71829);
  }

  // ---------- Main results ----------

  /** From count 8 on the power of e is above one hour (or does not fit at all). */
  lemma RawTimeoutHigh(count: int64, e: real, overflow: int64)
    requires IsE(e) && IsOverflowValue(overflow)
    requires 8 <= count < TWO_63 - 1
    ensures RawTimeout(count, e, overflow) > MAX_TIME_OUT || RawTimeout(count, e, overflow) <= 0
  {
    hide Pow;
    PowBounds(e);
    PowMonotone(e, 9, count + 1);
    ScaleBounds(8100.0, Pow(e, count + 1));
  }

  /** Very negative counts, and the largest one because it wraps around, round to zero. */
  lemma RawTimeoutLow(count: int64, e: real, overflow: int64)
    requires IsE(e)
    requires count <= -22 || count == TWO_63 - 1
    ensures RawTimeout(count, e, overflow) == 0
  {
    hide Pow;
    PowBounds(e);
    PowMonotone(e, Increment(count), -21);
    PowInverse(e, 21);
    SmallInverse(Pow(e, 21), Pow(e, -21), 1300000000.0);
    var q := Pow(e, Increment(count));
    PositiveProduct(TIME_OUT as real, q);
    assert TIME_OUT as real * q < 1.0;
  }

  lemma RawTimeoutMiddle(count: int64, e: real, overflow: int64)
    requires IsE(e)
    requires -21 <= count <= 7
    ensures 0 < RawTimeout(count, e, overflow) < MAX_TIME_OUT
    ensures RawTimeout(count, e, overflow) == (TIME_OUT as real * Pow(e, count + 1)).Floor
  {
    hide Pow;
    PowBounds(e);
    PowMonotone(e, -20, count + 1);
    PowMonotone(e, count + 1, 8);
    PowInverse(e, 20);
    LargeInverse(Pow(e, 20), Pow(e, -20), 500000000.0);
    ScaleBounds(Pow(e, -20), Pow(e, count + 1));
    ScaleBounds(Pow(e, count + 1), 2981.0);
  }

  lemma ScaleBounds(p: real, q: real)
    requires p <= q
    ensures TIME_OUT as real * p <= TIME_OUT as real * q
  {
  }

  lemma SmallInverse(p: real, q: real, bound: real)
    requires p > bound && q > 0.0 && Times(p, q) == 1.0
    ensures Times(bound, q) < 1.0
  {
    hide Times;
    PositiveProduct(p - bound, q);
    TimesLaws(p, bound, q);
  }

  lemma LargeInverse(p: real, q: real, bound: real)
    requires p < bound && q > 0.0 && Times(p, q) == 1.0
    ensures Times(bound, q) > 1.0
  {
    hide Times;
    PositiveProduct(bound - p, q);
    TimesLaws(bound, p, q);
  }

  /** The cap is reached exactly from count 8 on, and for counts so negative that the delay rounds to zero. */
  lemma CapExactly(count: int64, e: real, overflow: int64)
    requires IsE(e) && IsOverflowValue(overflow)
    ensures GetTimeout(count, e, overflow) == MAX_TIME_OUT <==> count >= 8 || count <= -22
  {
    hide Pow, RawTimeout;
    if count <= -22 || count == TWO_63 - 1 {
      RawTimeoutLow(count, e, overflow);
    } else if count <= 7 {
      RawTimeoutMiddle(count, e, overflow);
    } else {
      RawTimeoutHigh(count, e, overflow);
    }
  }

  /** More failures never shorten the delay. */
  lemma TimeoutMonotone(a: int64, b: int64, e: real, overflow: int64)
    requires IsE(e) && IsOverflowValue(overflow)
    requires -21 <= a <= b
    ensures GetTimeout(a, e, overflow) <= GetTimeout(b, e, overflow)
  {
    hide Pow, RawTimeout;
    CapExactly(b, e, overflow);
    if b <= 7 {
      RawTimeoutMiddle(a, e, overflow);
      RawTimeoutMiddle(b, e, overflow);
      PowMonotone(e, a + 1, b + 1);
      ScaleBounds(Pow(e, a + 1), Pow(e, b + 1));
    }
  }
}
