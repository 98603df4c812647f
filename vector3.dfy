/** Three-component vectors of reals with the operations the field
    synthesis uses: sum, scaling, division by a scalar, dot and cross
    product. */
module Vectors {

  import opened Arithmetic

  datatype Vector3 = Vector3(x: real, y: real, z: real)

  const Zero: Vector3 := Vector3(0.0, 0.0, 0.0)

  function Add(a: Vector3, b: Vector3): Vector3 {
    Vector3(a.x + b.x, a.y + b.y, a.z + b.z)
  }

  /** The vector scaled by s. */
  function Mul(v: Vector3, s: real): Vector3 {
    Vector3(v.x * s, v.y * s, v.z * s)
  }

  /** The vector divided by s. */
  function Div(v: Vector3, s: real): Vector3
    requires s != 0.0
  {
    Vector3(v.x / s, v.y / s, v.z / s)
  }

  function Dot(a: Vector3, b: Vector3): real {
    a.x * b.x + a.y * b.y + a.z * b.z
  }

  function Cross(a: Vector3, b: Vector3): Vector3 {
    Vector3(a.y * b.z - a.z * b.y, a.z * b.x - a.x * b.z, a.x * b.y - a.y * b.x)
  }

  /** The squared length is non-negative and vanishes exactly for the zero
      vector. */
  lemma {:induction false} NormSquared(v: Vector3)
    ensures Dot(v, v) >= 0.0
    ensures Dot(v, v) == 0.0 <==> v == Zero
  {
    var a, b, c := v.x * v.x, v.y * v.y, v.z * v.z;
    Square(v.x, a);
    Square(v.y, b);
    Square(v.z, c);
    assert Dot(v, v) == a + b + c;
  }

  /** The cross product is perpendicular to both of its factors. */
  lemma {:induction false} CrossPerpendicular(a: Vector3, b: Vector3)
    ensures Dot(Cross(a, b), a) == 0.0
    ensures Dot(Cross(a, b), b) == 0.0
  {
    var c := Cross(a, b);
    assert Dot(c, a) == (a.y * b.z - a.z * b.y) * a.x + (a.z * b.x - a.x * b.z) * a.y + (a.x * b.y - a.y * b.x) * a.z;
    assert Dot(c, b) == (a.y * b.z - a.z * b.y) * b.x + (a.z * b.x - a.x * b.z) * b.y + (a.x * b.y - a.y * b.x) * b.z;
  }

  /** Lagrange's identity: |a x b|^2 = |a|^2 |b|^2 - (a.b)^2. */
  lemma {:induction false} Lagrange(a: Vector3, b: Vector3)
    ensures Dot(Cross(a, b), Cross(a, b)) == Dot(a, a) * Dot(b, b) - Dot(a, b) * Dot(a, b)
  {
  }

  /** For perpendicular factors the squared length of the cross product is
      the product of the squared lengths. */
  lemma {:induction false} LagrangePerpendicular(a: Vector3, b: Vector3)
    requires Dot(a, b) == 0.0
    ensures Dot(Cross(a, b), Cross(a, b)) == Dot(a, a) * Dot(b, b)
  {
    Lagrange(a, b);
  }

  /** The cross product of two perpendicular non-zero vectors is non-zero. */
  lemma {:induction false} CrossOfPerpendicularNonZero(a: Vector3, b: Vector3)
    requires a != Zero && b != Zero && Dot(a, b) == 0.0
    ensures Cross(a, b) != Zero
  {
    NormSquared(a);
    NormSquared(b);
    NormSquared(Cross(a, b));
    LagrangePerpendicular(a, b);
    MulNonZero(Dot(a, a), Dot(b, b), Dot(Cross(a, b), Cross(a, b)));
  }

  /** Dividing a non-zero vector by a non-zero scalar gives a non-zero
      vector. */
  lemma {:induction false} DivNonZero(v: Vector3, s: real)
    requires v != Zero && s != 0.0
    ensures Div(v, s) != Zero
  {
    var d := Div(v, s);
    assert v.x == d.x * s && v.y == d.y * s && v.z == d.z * s;
  }

  /** Dot products are linear in their second argument. */
  lemma {:induction false} DotLinear(w: Vector3, u: Vector3, v: Vector3, s: real, t: real)
    ensures Dot(w, Add(Mul(u, s), Mul(v, t))) == s * Dot(w, u) + t * Dot(w, v)
  {
  }

  lemma {:induction false} DotMul(w: Vector3, v: Vector3, s: real)
    ensures Dot(w, Mul(v, s)) == s * Dot(w, v)
    ensures Dot(Mul(v, s), Mul(v, s)) == s * s * Dot(v, v)
  {
  }

  lemma {:induction false} DotDiv(w: Vector3, v: Vector3, s: real)
    requires s != 0.0
    ensures Dot(w, Div(v, s)) == Dot(w, v) / s
    ensures Dot(Div(v, s), w) == Dot(v, w) / s
  {
  }

  /** Dividing one of two perpendicular vectors by a non-zero scalar keeps
      them perpendicular. */
  lemma {:induction false} DivPerpendicular(w: Vector3, v: Vector3, s: real)
    requires s != 0.0 && Dot(w, v) == 0.0
    ensures Dot(w, Div(v, s)) == 0.0 && Dot(Div(v, s), w) == 0.0
  {
    DotDiv(w, v, s);
  }

  /** Dividing a vector by a non-zero m whose square is the vector's squared
      length gives a unit vector. */
  lemma {:induction false} UnitDiv(v: Vector3, m: real)
    requires m != 0.0 && m * m == Dot(v, v)
    ensures Dot(Div(v, m), Div(v, m)) == 1.0
  {
    var u := Div(v, m);
    DotDiv(u, v, m);
    DotDiv(v, v, m);
    assert Dot(v, v) / m == m;
  }

  /** A combination of two perpendicular unit vectors with coefficients c
      and s has squared length c^2 + s^2. */
  lemma {:induction false} OrthonormalCombination(e1: Vector3, e2: Vector3, c: real, s: real)
    requires Dot(e1, e1) == 1.0 && Dot(e2, e2) == 1.0 && Dot(e1, e2) == 0.0
    ensures Dot(Add(Mul(e1, c), Mul(e2, s)), Add(Mul(e1, c), Mul(e2, s))) == c * c + s * s
  {
    var w := Add(Mul(e1, c), Mul(e2, s));
    DotLinear(w, e1, e2, c, s);
    DotLinear(e1, e1, e2, c, s);
    DotLinear(e2, e1, e2, c, s);
    assert Dot(w, e1) == Dot(e1, w) && Dot(w, e2) == Dot(e2, w);
  }

  /** The combination e1 c + e2 s of two perpendicular unit vectors, with
      c^2 + s^2 = 1, scaled by a and split by two factors whose squares add
      up to one, has squared length a^2 over the two parts together. */
  lemma {:induction false} PhasedAmplitude(e1: Vector3, e2: Vector3, c: real, s: real, a: real, cp: real, sp: real)
    requires Dot(e1, e1) == 1.0 && Dot(e2, e2) == 1.0 && Dot(e1, e2) == 0.0
    requires c * c + s * s == 1.0 && cp * cp + sp * sp == 1.0
    ensures Dot(Mul(Mul(Add(Mul(e1, c), Mul(e2, s)), a), cp), Mul(Mul(Add(Mul(e1, c), Mul(e2, s)), a), cp)) +
            Dot(Mul(Mul(Add(Mul(e1, c), Mul(e2, s)), a), sp), Mul(Mul(Add(Mul(e1, c), Mul(e2, s)), a), sp)) == a * a
  {
    var w := Add(Mul(e1, c), Mul(e2, s));
    var b := Mul(w, a);
    OrthonormalCombination(e1, e2, c, s);
    DotMul(b, w, a);
    DotMul(b, b, cp);
    DotMul(b, b, sp);
    var d := Dot(b, b);
    assert d == a * a * Dot(w, w);
    assert d == a * a;
    var x, y := cp * cp, sp * sp;
    assert Dot(Mul(b, cp), Mul(b, cp)) == x * d && Dot(Mul(b, sp), Mul(b, sp)) == y * d;
    assert x * d + y * d == (x + y) * d;
  }

  /** Scaling two perpendicular non-zero vectors by non-zero factors keeps
      them non-zero and perpendicular. */
  lemma {:induction false} NormalizedOrthogonal(e1: Vector3, e2: Vector3, m1: real, m2: real)
    requires e1 != Zero && e2 != Zero && m1 != 0.0 && m2 != 0.0 && Dot(e1, e2) == 0.0
    ensures Div(e1, m1) != Zero && Div(e2, m2) != Zero
    ensures Dot(Div(e1, m1), Div(e2, m2)) == 0.0
  {
    DivNonZero(e1, m1);
    DivNonZero(e2, m2);
    DivPerpendicular(e2, e1, m1);
    DivPerpendicular(Div(e1, m1), e2, m2);
  }

  /** A vector perpendicular to e1 and e2 stays perpendicular to them after
      they are scaled by non-zero factors. */
  lemma {:induction false} NormalizedPerpendicular(w: Vector3, e1: Vector3, e2: Vector3, m1: real, m2: real)
    requires m1 != 0.0 && m2 != 0.0 && Dot(w, e1) == 0.0 && Dot(w, e2) == 0.0
    ensures Dot(w, Div(e1, m1)) == 0.0 && Dot(w, Div(e2, m2)) == 0.0
  {
    DivPerpendicular(w, e1, m1);
    DivPerpendicular(w, e2, m2);
  }
}
