/** The floating-point functions the synthesis calls: `cos`, `sin`, `sqrt`
    and `pow` of the C library, and the magnitude and parallelism test of
    the vector class. They are not computed here; a `Library` value stands
    for them, holding one function per library call, and the predicates
    below state the only facts about them that the proofs use. */
module Numerics {

  import Arithmetic
  import opened Vectors

  datatype Library = Library(
    cosOf: real -> real,
    sinOf: real -> real,
    sqrtOf: real -> real,
    powOf: (real, real) -> real,
    magOf: Vector3 -> real,
    parallelOf: (Vector3, Vector3, real) -> bool)
  {
    /** The cosine of x. */
    function Cos(x: real): real
    {
      cosOf(x)
    }

    /** The sine of x. */
    function Sin(x: real): real
    {
      sinOf(x)
    }

    /** The square root of x. */
    function Sqrt(x: real): real
    {
      sqrtOf(x)
    }

    /** x raised to the power y. */
    function Pow(x: real, y: real): real
    {
      powOf(x, y)
    }

    /** The magnitude of a vector. */
    function Mag(v: Vector3): real
    {
      magOf(v)
    }

    /** Whether v and w are parallel up to an angle tolerance. */
    function IsParallel(v: Vector3, w: Vector3, tolerance: real): bool
    {
      parallelOf(v, w, tolerance)
    }
  }

  /** `mag` is a length: zero exactly for the zero vector. Nothing is
      assumed about the parallelism test. */
  ghost predicate MagnitudeLaws(lib: Library)
  {
    forall v :: lib.Mag(v) == 0.0 <==> v == Zero
  }

  /** `sqrt` is the non-negative square root on non-negative arguments and
      `pow(x, 2)` is the square of x. */
  ghost predicate RootLaws(lib: Library)
  {
    (forall x :: x >= 0.0 ==> lib.Sqrt(x) >= 0.0 && lib.Sqrt(x) * lib.Sqrt(x) == x) &&
    (forall x :: lib.Pow(x, 2.0) == x * x)
  }

  /** `mag` is the Euclidean length: it is non-negative and its square is
      the dot product of the vector with itself. */
  ghost predicate NormLaws(lib: Library)
  {
    forall v :: lib.Mag(v) >= 0.0 && lib.Mag(v) * lib.Mag(v) == Dot(v, v)
  }

  /** The squares of the cosine and the sine of an angle add up to one. */
  ghost predicate TrigLaws(lib: Library)
  {
    forall x :: lib.Cos(x) * lib.Cos(x) + lib.Sin(x) * lib.Sin(x) == 1.0
  }

  /** The norm laws at one vector. */
  lemma {:induction false} MagSquared(lib: Library, v: Vector3)
    requires NormLaws(lib)
    ensures lib.Mag(v) >= 0.0 && lib.Mag(v) * lib.Mag(v) == Dot(v, v)
  {
  }

  /** The trigonometric law at one angle. */
  lemma {:induction false} TrigSquares(lib: Library, x: real)
    requires TrigLaws(lib)
    ensures lib.Cos(x) * lib.Cos(x) + lib.Sin(x) * lib.Sin(x) == 1.0
  {
  }

  /** A Euclidean length is zero exactly for the zero vector, so the norm
      laws include the magnitude law. */
  lemma {:induction false} NormLawsMagnitude(lib: Library)
    requires NormLaws(lib)
    ensures MagnitudeLaws(lib)
  {
    forall v
      ensures lib.Mag(v) == 0.0 <==> v == Zero
    {
      MagSquared(lib, v);
      NormSquared(v);
      Arithmetic.Square(lib.Mag(v), Dot(v, v));
    }
  }

  /** A non-zero vector has a non-zero magnitude, and a vector of non-zero
      magnitude is non-zero. */
  lemma {:induction false} MagnitudeNonZero(lib: Library, v: Vector3)
    requires MagnitudeLaws(lib)
    ensures lib.Mag(v) != 0.0 <==> v != Zero
  {
  }

  /** The root r of a positive number is positive, and squares back to it. */
  lemma {:induction false} RootOfPositive(lib: Library, x: real) returns (r: real)
    requires RootLaws(lib) && x > 0.0
    ensures r == lib.Sqrt(x) && r > 0.0 && r * r == x
  {
    r := lib.Sqrt(x);
    assert r >= 0.0 && r * r == x;
    Arithmetic.Square(r, x);
  }
}
