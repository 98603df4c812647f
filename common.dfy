/** The three small helpers of the common header: `digit`, `clip` and
    `pow_integer`, together with the C++ integer operators they rest on. */
module Common {

  import opened Arithmetic

  // ---------------------------------------------------------------------
  // C++ integer arithmetic
  // ---------------------------------------------------------------------

  const IntMin: int := -0x8000_0000
  const IntMax: int := 0x7fff_ffff

  /** Values representable in a C++ `int` (32 bits). */
  predicate InIntRange(x: int) {
    IntMin <= x <= IntMax
  }

  function Abs(x: int): (r: nat)
    ensures r == x || r == -x
  {
    if x < 0 then -x else x
  }

  function Sign(x: int): (r: int)
    ensures r * Abs(x) == x
  {
    if x < 0 then -1 else if x == 0 then 0 else 1
  }

  /** C++ `a / b`: the quotient truncated toward zero. */
  function TDiv(a: int, b: int): (q: int)
    requires b != 0
    ensures Abs(q) == Abs(a) / Abs(b)
    ensures (a < 0) == (b < 0) ==> q >= 0
    ensures (a < 0) != (b < 0) ==> q <= 0
  {
    var m := Abs(a) / Abs(b);
    assert m >= 0;
    if (a < 0) == (b < 0) then m else -m
  }

  /** C++ `a % b`: the remainder carries the sign of the dividend and its
      magnitude is |a| mod |b|. */
  function TRem(a: int, b: int): (r: int)
    requires b != 0
    ensures TDiv(a, b) * b + r == a
    ensures Abs(r) == Abs(a) % Abs(b) < Abs(b)
    ensures a >= 0 ==> r >= 0
    ensures a <= 0 ==> r <= 0
  {
    var q, s := Abs(a) / Abs(b), Abs(a) % Abs(b);
    assert Abs(a) == q * Abs(b) + s;
    NegatedProducts(q, Abs(b));
    if a < 0 then -s else s
  }

  lemma {:induction false} NegatedProducts(x: int, y: int)
    ensures (-x) * (-y) == x * y && (-x) * y == -(x * y) && x * (-y) == -(x * y)
  {
  }

  // ---------------------------------------------------------------------
  // digit (Common.h:23-26)
  // ---------------------------------------------------------------------

  /** The decimal digit of `value` at place `d`: the remainder of `value`
      by ten times `d`, divided by `d`, both with C++'s truncating division.
      The source divides by `d` and multiplies it by 10 without checks, so
      `d != 0` and a non-overflowing `d * 10` are what a caller must supply. */
  function Digit(value: int, d: int): (r: int)
    requires InIntRange(value) && InIntRange(d * 10) && d != 0
    ensures -9 <= r <= 9
    ensures InIntRange(r)
  {
    var m := TRem(value, d * 10);
    assert Abs(m) < Abs(d) * 10;
    assert Abs(m) / Abs(d) < 10 by { DivBelow(Abs(m), Abs(d), 10); }
    TDiv(m, d)
  }

  /** For non-negative numbers taking the remainder modulo 10*d first and
      dividing by d afterwards picks out the same digit as dividing first. */
  lemma {:induction false} DigitOfNatural(v: nat, d: nat)
    requires d > 0
    ensures (v % (d * 10)) / d == (v / d) % 10
  {
    var q, r := v / (d * 10), v % (d * 10);
    assert v == q * (d * 10) + r;
    var t, s := r / d, r % d;
    assert r == t * d + s;
    DivBelow(r, d, 10);
    assert v == (q * 10 + t) * d + s;
    DivModUnique(v, d, q * 10 + t, s);
    DivModUnique(v / d, 10, q, t);
  }

  /** The whole behaviour of `digit`: the magnitude is the decimal digit of
      |value| in position |d|, the sign is the product of the signs (C++
      `%` keeps the sign of the dividend, `/` truncates toward zero). */
  lemma {:induction false} DigitCharacterization(value: int, d: int)
    requires InIntRange(value) && InIntRange(d * 10) && d != 0
    ensures Digit(value, d) == Sign(value) * Sign(d) * ((Abs(value) / Abs(d)) % 10)
  {
    var m := TRem(value, d * 10);
    assert Abs(d * 10) == Abs(d) * 10;
    DigitOfNatural(Abs(value), Abs(d));
    var D := (Abs(value) / Abs(d)) % 10;
    assert Abs(m) / Abs(d) == D;
    assert Abs(TDiv(m, d)) == D;
    if m == 0 || value == 0 {
      assert D == 0;
    } else if value > 0 {
      assert Sign(value) * Sign(d) == Sign(d);
    } else {
      assert Sign(value) * Sign(d) == -Sign(d);
    }
  }

  /** The documented use: a non-negative value and a positive position
      give the ordinary decimal digit. */
  lemma {:induction false} DigitOfNonNegative(value: int, d: int)
    requires InIntRange(value) && InIntRange(d * 10) && d > 0 && value >= 0
    ensures Digit(value, d) == (value / d) % 10
    ensures 0 <= Digit(value, d) <= 9
  {
    DigitCharacterization(value, d);
    if value == 0 {
      assert (Abs(value) / Abs(d)) % 10 == 0;
    }
  }

  /** For a negative value the truncating `%` makes the digit non-positive:
      it is the negated digit of |value|. */
  lemma {:induction false} DigitOfNegative(value: int, d: int)
    requires InIntRange(value) && InIntRange(d * 10) && d > 0 && value < 0
    ensures Digit(value, d) == -((-value / d) % 10)
    ensures -9 <= Digit(value, d) <= 0
  {
    DigitCharacterization(value, d);
  }

  // ---------------------------------------------------------------------
  // clip (Common.h:28-32)
  // ---------------------------------------------------------------------

  /** `std::min(a, b)`: `b` when `b < a`, otherwise `a`. */
  function Min(a: real, b: real): (r: real)
    ensures r <= a && r <= b && (r == a || r == b)
  {
    if b < a then b else a
  }

  /** `std::max(a, b)`: `b` when `a < b`, otherwise `a`. */
  function Max(a: real, b: real): (r: real)
    ensures r >= a && r >= b && (r == a || r == b)
  {
    if a < b then b else a
  }

  /** `x` limited to the closed range from `lower` to `upper`; when the
      range is empty the lower bound wins. */
  function Clip(x: real, lower: real, upper: real): (r: real)
    ensures lower <= upper ==> lower <= r <= upper
    ensures lower <= x <= upper ==> r == x
    ensures lower <= upper && x < lower ==> r == lower
    ensures lower <= upper && upper < x ==> r == upper
    ensures upper < lower ==> r == lower
  {
    Max(lower, Min(x, upper))
  }

  /** Clipping an already clipped value changes nothing, also when the
      bounds are the wrong way round. */
  lemma {:induction false} ClipIdempotent(x: real, lower: real, upper: real)
    ensures Clip(Clip(x, lower, upper), lower, upper) == Clip(x, lower, upper)
  {
  }

  // ---------------------------------------------------------------------
  // pow_integer (Common.h:55-67)
  // ---------------------------------------------------------------------

  /** The reference definition of b^e: e-fold multiplication. */
  function Power(b: real, e: nat): real
  {
    if e == 0 then 1.0 else b * Power(b, e - 1)
  }

  /** `pow_integer<exponent>(base)`: square the base and halve the exponent
      (`exponent >> 1`), multiplying in one more `base` when the lowest bit
      (`exponent & 1`) is set; the exponent 0 specialisation returns 1. */
  function PowInteger(exponent: nat, base: real): real
    decreases exponent
  {
    if exponent == 0 then 1.0
    else PowInteger(exponent / 2, base * base) * (if exponent % 2 > 0 then base else 1.0)
  }

  lemma {:induction false} PowerAdd(b: real, m: nat, k: nat)
    ensures Power(b, m + k) == Power(b, m) * Power(b, k)
    decreases m
  {
    if m > 0 {
      PowerAdd(b, m - 1, k);
    }
  }

  lemma {:induction false} PowerOfSquare(b: real, m: nat)
    ensures Power(b * b, m) == Power(b, 2 * m)
    decreases m
  {
    if m > 0 {
      PowerOfSquare(b, m - 1);
      calc {
        Power(b, 2 * m);
        b * Power(b, 2 * m - 1);
        b * (b * Power(b, 2 * (m - 1)));
        (b * b) * Power(b * b, m - 1);
      }
    }
  }

  /** Exponentiation by squaring computes b^e for every natural e. */
  lemma {:induction false} PowIntegerIsPower(exponent: nat, base: real)
    ensures PowInteger(exponent, base) == Power(base, exponent)
    decreases exponent
  {
    if exponent > 0 {
      var h := exponent / 2;
      assert PowInteger(exponent, base)
          == PowInteger(h, base * base) * (if exponent % 2 > 0 then base else 1.0);
      PowIntegerIsPower(h, base * base);
      PowerOfSquare(base, h);
      if exponent % 2 > 0 {
        assert exponent == 2 * h + 1;
        PowerAdd(base, 2 * h, 1);
        assert Power(base, 1) == base * Power(base, 0);

      } else {
        assert exponent == 2 * h;
      }
    }
  }

  /** The cases spelled out in the header: exponent 0 gives 1, exponent 1
      gives the base, and `pow_integer<2>(x)` evaluates to `x*x`. */
  lemma {:induction false} PowIntegerSmall(base: real)
    ensures PowInteger(0, base) == 1.0
    ensures PowInteger(1, base) == base
    ensures PowInteger(2, base) == base * base
  {
    PowIntegerIsPower(1, base);
    PowIntegerIsPower(2, base);
  }
}
