/**
 * MoneyOps money arithmetic: every result is rounded to two decimal places, half away from zero
 * (`RoundingMode.HALF_UP`). Decimal amounts are modelled as reals; a BigDecimal's scale is not modelled.
 */
module Money {
  import opened Wrappers

  /** A whole number of hundredths. */
  predicate IsCents(r: real) { (r * 100.0).Floor as real == r * 100.0 }

  /** Half a cent, the largest distance rounding may move an amount. */
  const HALF_CENT: real := 0.005

  /** The rounding band of `a`: half-open towards zero, so a tie goes away from zero. */
  predicate InBand(c: real, a: real)
  {
    if a >= 0.0 then -HALF_CENT < c - a <= HALF_CENT else -HALF_CENT <= c - a < HALF_CENT
  }

  /** `n` hundredths. */
  function Cents(n: int): (r: real)
    ensures r * 100.0 == n as real && IsCents(r)
  {
    assert (n as real).Floor == n;
    n as real / 100.0
  }

  /** `round`: `setScale(2, HALF_UP)`. */
  function Round(a: real): (r: real)
    ensures IsCents(r) && InBand(r, a)
  {
    if a >= 0.0 then
      var x := a * 100.0 + 0.5;
      assert x.Floor as real <= x < x.Floor as real + 1.0;
      Cents(x.Floor)
    else
      var x := -a * 100.0 + 0.5;
      assert x.Floor as real <= x < x.Floor as real + 1.0;
      Cents(-x.Floor)
  }

  /** Two cent amounts closer than a cent are equal. */
  lemma CentsApart(c: real, d: real)
    requires IsCents(c) && IsCents(d) && -0.01 < c - d < 0.01
    ensures c == d
  {
    var n, m := (c * 100.0).Floor, (d * 100.0).Floor;
    assert -1.0 < n as real - m as real < 1.0;
    assert n == m;
  }

  /** The contract of `Round` determines it: the one cent amount in the rounding band is the rounded value. */
  lemma {:induction false} RoundUnique(a: real, c: real)
    requires IsCents(c) && InBand(c, a)
    ensures c == Round(a)
  {
    CentsApart(c, Round(a));
  }

  /** Rounding leaves a cent amount alone, so rounding twice is rounding once. */
  lemma RoundIdempotent(a: real)
    ensures IsCents(a) ==> Round(a) == a
    ensures Round(Round(a)) == Round(a)
  {
    if IsCents(a) { RoundUnique(a, a); }
    RoundUnique(Round(a), Round(a));
  }

  /** Half-up rounding is symmetric about zero. */
  lemma RoundNegate(a: real)
    ensures Round(-a) == -Round(a)
  {
    var c := Cents(-(Round(a) * 100.0).Floor);
    assert c == -Round(a);
    if a == 0.0 {
      RoundUnique(0.0, 0.0);
      RoundUnique(-a, 0.0);
    } else {
      RoundUnique(-a, c);
    }
  }

  /** Rounding keeps order. */
  lemma RoundMonotone(a: real, b: real)
    requires a <= b
    ensures Round(a) <= Round(b)
  {
    if Round(a) > Round(b) {
      CentsApart(Round(a), Round(b));
    }
  }

  /** `add`. */
  function Add(a: real, b: real): (r: real)
    ensures IsCents(r) && InBand(r, a + b)
  {
    Round(a + b)
  }

  /** `subtract`. */
  function Subtract(a: real, b: real): (r: real)
    ensures IsCents(r) && InBand(r, a - b)
  {
    Round(a - b)
  }

  /** `multiply`. */
  function Multiply(a: real, b: real): (r: real)
    ensures IsCents(r) && InBand(r, a * b)
  {
    Round(a * b)
  }

  /** `divide`: the quotient to two places, half up; a zero divisor raises. */
  function Divide(a: real, b: real): (r: Result<real>)
    ensures r.Err? <==> b == 0.0
    ensures r.Ok? ==> IsCents(r.value) && InBand(r.value, a / b)
  {
    if b == 0.0 then Err("ArithmeticException")
    else
      var q := a / b;
      RoundIdempotent(q);
      Ok(Round(Round(q)))
  }

  /** The outer rounding in `divide` changes nothing. */
  lemma DivideRoundsOnce(a: real, b: real)
    requires b != 0.0
    ensures Divide(a, b) == Ok(Round(a / b))
  {
    RoundIdempotent(a / b);
  }

  /** Sums and differences of cent amounts are exact. */
  lemma AddExactOnCents(a: real, b: real)
    requires IsCents(a) && IsCents(b)
    ensures Add(a, b) == a + b && Subtract(a, b) == a - b
  {
    var n, m := (a * 100.0).Floor, (b * 100.0).Floor;
    assert a + b == Cents(n + m) && a - b == Cents(n - m);
    RoundIdempotent(a + b);
    RoundIdempotent(a - b);
  }

  /** Subtracting is adding the negation. */
  lemma SubtractIsAddNegated(a: real, b: real)
    ensures Subtract(a, b) == Add(a, -b) && Subtract(b, a) == -Subtract(a, b)
  {
    RoundNegate(a - b);
  }

  /** `isPositive` */
  predicate IsPositive(a: real) { a > 0.0 }

  /** `isNegative` */
  predicate IsNegative(a: real) { a < 0.0 }

  /** Rounding never flips a sign, but an amount under half a cent rounds to zero and so stops being positive. */
  lemma RoundKeepsSign(a: real)
    ensures IsPositive(Round(a)) ==> IsPositive(a)
    ensures IsNegative(Round(a)) ==> IsNegative(a)
    ensures IsPositive(a) ==> (IsPositive(Round(a)) <==> a >= HALF_CENT)
  {
    RoundUnique(0.0, 0.0);
    if a < 0.0 { RoundMonotone(a, 0.0); }
    if a >= 0.0 { RoundMonotone(0.0, a); }
    if 0.0 < a < HALF_CENT { RoundUnique(a, 0.0); }
    if a >= HALF_CENT { RoundMonotone(HALF_CENT, a); RoundUnique(HALF_CENT, 0.01); }
  }
}
