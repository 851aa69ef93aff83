/**
 * The monetary normaliser of the food controller: `round` and `toFixed`.
 * Arithmetic is over exact reals; IEEE-754 float64 and the 64-bit int
 * conversion are abstracted away.
 */
module Money {

  function Abs(x: real): real { if x < 0.0 then -x else x }

  /** Go's int(f) conversion: truncation toward zero. */
  function Trunc(y: real): (r: int)
    ensures Abs(r as real) <= Abs(y) < Abs(r as real) + 1.0
    ensures y >= 0.0 ==> r >= 0
    ensures y <= 0.0 ==> r <= 0
  {
    if y >= 0.0 then y.Floor else -((-y).Floor)
  }

  /** Go's math.Copysign(mag, sign) for a non-negative magnitude. */
  function CopySign(mag: real, sign: real): real
  {
    if sign < 0.0 then -mag else mag
  }

  function Ceil(y: real): int { -((-y).Floor) }

  /** `round(num)`: int(num + copysign(0.5, num)). */
  function Round(x: real): int
  {
    Trunc(x + CopySign(0.5, x))
  }

  /** For non-negative arguments Round is floor(x + 1/2). */
  lemma RoundNonNegative(x: real)
    requires x >= 0.0
    ensures Round(x) == (x + 0.5).Floor
  {
  }

  /** For negative arguments Round is ceil(x - 1/2). */
  lemma RoundNegative(x: real)
    requires x < 0.0
    ensures Round(x) == Ceil(x - 0.5)
  {
  }

  /** Round is an odd function: rounding is symmetric about zero. */
  lemma RoundOdd(x: real)
    ensures Round(-x) == -Round(x)
  {
    if x > 0.0 {
      assert Round(-x) == -((x + 0.5).Floor);
    }
  }

  /** Round moves its argument by at most one half. */
  lemma RoundError(x: real)
    ensures Abs(Round(x) as real - x) <= 0.5
  {
    if x >= 0.0 {
      RoundNonNegative(x);
    } else {
      RoundOdd(-x);
      RoundNonNegative(-x);
    }
  }

  /** Round fixes every integer. */
  lemma RoundInteger(n: int)
    ensures Round(n as real) == n
  {
    if n < 0 {
      RoundOdd(-n as real);
    }
  }

  lemma NearestNonNegative(x: real, m: int)
    requires x >= 0.0
    ensures Abs(Round(x) as real - x) <= Abs(m as real - x)
    ensures Abs(Round(x) as real - x) == 0.5 ==> Round(x) as real == x + 0.5
  {
    var n := Round(x);
    RoundNonNegative(x);
    assert x - 0.5 < n as real <= x + 0.5;
    if m > n {
      assert m as real >= n as real + 1.0;
    } else if m < n {
      assert m as real <= n as real - 1.0;
    }
  }

  /**
   * Round yields a nearest integer, and on a tie the one farther from
   * zero: half away from zero, neither banker's rounding nor truncation.
   */
  lemma RoundHalfAwayFromZero(x: real, m: int)
    ensures Abs(Round(x) as real - x) <= Abs(m as real - x)
    ensures Abs(Round(x) as real - x) == 0.5 ==> Abs(Round(x) as real) > Abs(x)
  {
    if x >= 0.0 {
      NearestNonNegative(x, m);
    } else {
      var y := -x;
      NearestNonNegative(y, -m);
      RoundOdd(y);
      assert Round(x) == -Round(y);
      assert Abs(Round(x) as real - x) == Abs(Round(y) as real - y);
      assert Abs((-m) as real - y) == Abs(m as real - x);
    }
  }

  /**
   * x * 10^p for an integer exponent p, the scaling toFixed performs with
   * math.Pow(10, float64(p)); computed one decimal place at a time.
   */
  function Shift(x: real, p: int): real
    decreases if p < 0 then -p else p
  {
    if p == 0 then x
    else if p > 0 then 10.0 * Shift(x, p - 1)
    else Shift(x, p + 1) / 10.0
  }

  /** 10^p itself. */
  function Pow(p: int): (r: real)
  {
    Shift(1.0, p)
  }

  /** Shifting is multiplication by 10^p. */
  lemma {:induction false} ShiftIsProduct(x: real, p: int)
    ensures Shift(x, p) == x * Pow(p)
    decreases if p < 0 then -p else p
  {
    if p > 0 {
      ShiftIsProduct(x, p - 1);
      ShiftIsProduct(1.0, p - 1);
    } else if p < 0 {
      ShiftIsProduct(x, p + 1);
      ShiftIsProduct(1.0, p + 1);
    }
  }

  lemma {:induction false} ShiftLinear(a: real, b: real, p: int)
    ensures Shift(a - b, p) == Shift(a, p) - Shift(b, p)
    decreases if p < 0 then -p else p
  {
    if p > 0 {
      ShiftLinear(a, b, p - 1);
    } else if p < 0 {
      ShiftLinear(a, b, p + 1);
    }
  }

  lemma {:induction false} ShiftNegate(a: real, p: int)
    ensures Shift(-a, p) == -Shift(a, p)
    decreases if p < 0 then -p else p
  {
    if p > 0 {
      ShiftNegate(a, p - 1);
    } else if p < 0 {
      ShiftNegate(a, p + 1);
    }
  }

  lemma {:induction false} ShiftMonotone(a: real, b: real, p: int)
    requires a <= b
    ensures Shift(a, p) <= Shift(b, p)
    decreases if p < 0 then -p else p
  {
    if p > 0 {
      ShiftMonotone(a, b, p - 1);
    } else if p < 0 {
      ShiftMonotone(a, b, p + 1);
    }
  }

  lemma {:induction false} ShiftStep(x: real, p: int)
    ensures Shift(x, p + 1) == 10.0 * Shift(x, p)
    decreases if p < 0 then -p else p
  {
    if p < -1 {
      ShiftStep(x, p + 1);
    }
  }

  /** Shifting by p and back by -p is the identity. */
  lemma {:induction false} ShiftInverse(x: real, p: int)
    ensures Shift(Shift(x, p), -p) == x
    decreases if p < 0 then -p else p
  {
    if p > 0 {
      ShiftInverse(x, p - 1);
      ShiftFactor(Shift(x, p - 1), -p);
    } else if p < 0 {
      ShiftInverse(x, p + 1);
      ShiftDivide(Shift(x, p + 1), -p - 1);
    }
  }

  lemma {:induction false} ShiftFactor(z: real, q: int)
    ensures Shift(10.0 * z, q) == Shift(z, q + 1)
    decreases if q < 0 then -q else q
  {
    if q > 0 {
      ShiftFactor(z, q - 1);
      ShiftStep(z, q);
    } else if q < 0 {
      ShiftFactor(z, q + 1);
      ShiftStep(z, q);
    }
  }

  lemma {:induction false} ShiftDivide(z: real, q: int)
    ensures Shift(z / 10.0, q + 1) == Shift(z, q)
    decreases if q < 0 then -q else q
  {
    ShiftFactor(z / 10.0, q);
    assert 10.0 * (z / 10.0) == z;
  }

  /** `toFixed(num, precision)`: float64(round(num * 10^p)) / 10^p. */
  function ToFixed(x: real, p: int): real
  {
    Shift(Round(Shift(x, p)) as real, -p)
  }

  /** The result has at most p decimals: scaled by 10^p it is an integer. */
  lemma ToFixedDecimals(x: real, p: int)
    ensures Shift(ToFixed(x, p), p) == Round(Shift(x, p)) as real
  {
    ShiftInverse(Round(Shift(x, p)) as real, -p);
  }

  /**
   * toFixed moves its argument by at most half a unit in the p-th decimal:
   * |toFixed(x, p) - x| <= 0.5 * 10^-p.
   */
  lemma ToFixedError(x: real, p: int)
    ensures Abs(ToFixed(x, p) - x) <= Shift(0.5, -p)
  {
    var n := Round(Shift(x, p)) as real;
    RoundError(Shift(x, p));
    ShiftInverse(x, p);
    ShiftLinear(n, Shift(x, p), -p);
    var d := n - Shift(x, p);
    assert ToFixed(x, p) - x == Shift(d, -p);
    if d >= 0.0 {
      ShiftMonotone(d, 0.5, -p);
      ShiftMonotone(0.0, d, -p);
    } else {
      ShiftMonotone(-d, 0.5, -p);
      ShiftNegate(d, -p);
      ShiftMonotone(d, 0.0, -p);
    }
    assert Shift(0.0, -p) == 0.0 by { ShiftNegate(0.0, -p); }
  }

  /** An amount that is already a whole number of 10^-p units is fixed. */
  lemma ToFixedOfUnits(n: int, p: int)
    ensures ToFixed(Shift(n as real, -p), p) == Shift(n as real, -p)
  {
    ShiftInverse(n as real, -p);
    RoundInteger(n);
  }

  /** toFixed is idempotent: an already normalised amount is left alone. */
  lemma ToFixedIdempotent(x: real, p: int)
    ensures ToFixed(ToFixed(x, p), p) == ToFixed(x, p)
  {
    ToFixedOfUnits(Round(Shift(x, p)), p);
  }

  /** toFixed is symmetric about zero. */
  lemma ToFixedOdd(x: real, p: int)
    ensures ToFixed(-x, p) == -ToFixed(x, p)
  {
    ShiftNegate(x, p);
    RoundOdd(Shift(x, p));
    ShiftNegate(Round(Shift(x, p)) as real, -p);
  }

  /** The two worked examples: 2.345 and -2.345 at two decimals. */
  lemma ToFixedExamples()
    ensures ToFixed(2.345, 2) == 2.35
    ensures ToFixed(-2.345, 2) == -2.35
  {
    assert Shift(2.345, 2) == 234.5;
    assert Round(234.5) == 235;
    assert Shift(235.0, -2) == 2.35;
    ToFixedOdd(2.345, 2);
  }
}
