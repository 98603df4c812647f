/** Small facts about integer and real arithmetic that the index layout,
    the vector algebra and the normalisation rest on. Every non-linear
    fact is stated with the product bound to a variable (`p == a * b`), so
    that the inequalities are about that variable. */
module Arithmetic {

  /** x <= y and 0 <= c give x * c <= y * c. */
  lemma {:induction false} MulMonotone(x: int, y: int, c: int)
    requires x <= y && 0 <= c
    ensures x * c <= y * c
  {
    var d := y - x;
    assert y * c == x * c + d * c;
  }

  /** Euclidean division is the only (quotient, remainder) pair with the
      remainder in [0, b). */
  lemma {:induction false} DivModUnique(a: int, b: int, q: int, r: int)
    requires b > 0 && 0 <= r < b && a == q * b + r
    ensures a / b == q && a % b == r
  {
    var q', r' := a / b, a % b;
    assert a == q' * b + r';
    if q' < q {
      MulMonotone(q' + 1, q, b);
    } else if q' > q {
      MulMonotone(q + 1, q', b);
    }
  }

  /** x < b * k implies x / b < k (for positive b). */
  lemma {:induction false} DivBelow(x: nat, b: nat, k: nat)
    requires b > 0 && x < b * k
    ensures x / b < k
  {
    var q := x / b;
    assert x == q * b + x % b;
    if q >= k {
      MulMonotone(k, q, b);
    }
  }

  /** Multiplication distributes over addition. */
  lemma {:induction false} AddMul(a: int, b: int, c: int)
    ensures (a + b) * c == a * c + b * c
  {
  }

  /** A digit in position `q` of radix `b` followed by `r < b` stays below
      the next multiple: q < m and r < b give q * b + r < m * b. */
  lemma {:induction false} MixedRadixBelow(q: nat, r: nat, b: nat, m: nat)
    requires q < m && r < b
    ensures q * b + r < m * b
  {
    MulMonotone(q + 1, m, b);
  }

  /** The product of two positive reals is positive. */
  lemma {:induction false} MulPositive(a: real, b: real, p: real)
    requires a > 0.0 && b > 0.0 && p == a * b
    ensures p > 0.0
  {
  }

  /** The product of two non-negative reals is non-negative. */
  lemma {:induction false} MulNonNegative(a: real, b: real, p: real)
    requires a >= 0.0 && b >= 0.0 && p == a * b
    ensures p >= 0.0
  {
    if a > 0.0 && b > 0.0 {
      MulPositive(a, b, p);
    }
  }

  /** A square is non-negative and vanishes only at zero. */
  lemma {:induction false} Square(x: real, s: real)
    requires s == x * x
    ensures s >= 0.0
    ensures s == 0.0 <==> x == 0.0
  {
    if x > 0.0 {
      MulPositive(x, x, s);
    } else if x < 0.0 {
      MulPositive(-x, -x, s);
    }
  }

  /** A product of non-zero reals is non-zero. */
  lemma {:induction false} MulNonZero(a: real, b: real, p: real)
    requires a != 0.0 && b != 0.0 && p == a * b
    ensures p != 0.0
  {
    if a > 0.0 && b > 0.0 {
      MulPositive(a, b, p);
    } else if a < 0.0 && b < 0.0 {
      MulPositive(-a, -b, p);
    } else if a > 0.0 {
      MulPositive(a, -b, -p);
    } else {
      MulPositive(-a, b, -p);
    }
  }

  /** Dividing a positive real by a positive real gives a positive real. */
  lemma {:induction false} DivPositive(a: real, b: real, q: real)
    requires a > 0.0 && b > 0.0 && q == a / b
    ensures q > 0.0
  {
    assert a == q * b;
    if q <= 0.0 {
      if q < 0.0 {
        MulPositive(-q, b, -a);
      }
    }
  }
}
