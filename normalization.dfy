/** From the filled spectrum to the stored grid: the inverse transform
    (a parameter), the sum of squares over the n^3 cells read back through
    the padded index, the weight `Brms / sqrt(sumB2 / n^3)`, the value of
    every stored cell, and the mean square of the stored grid. */
module Normalization {

  import Arithmetic
  import opened Vectors
  import opened GridLayout
  import opened Randomness
  import opened Numerics
  import opened Spectrum

  /** The in-place complex-to-real inverse transform of one n x n x n grid:
      it turns the 2 * n * n * n2 doubles of a buffer into as many doubles,
      of which the padded index reads the n^3 real samples. `Execute`
      keeps the length of the buffer (and gives back the buffer itself
      where `run` would not), so that every length-preserving function
      has a `C2R` that stands for it. */
  datatype C2R = C2R(run: (nat, seq<real>) -> seq<real>)
  {
    /** The transform of buffer s of a grid of side n. */
    function Execute(n: nat, s: seq<real>): (t: seq<real>)
      ensures |t| == |s|
    {
      var out := run(n, s);
      if |out| == |s| then out else s
    }
  }

  /** Buffer `B<a>` after the transform. */
  function Transformed(lib: Library, p: Params, st: Stream, c2r: C2R, a: Axis): (t: seq<real>)
    requires MagnitudeLaws(lib) && ValidParams(p)
    ensures |t| == BufferLength(p.n)
  {
    c2r.Execute(p.n, SpectrumBuffer(lib, p, st, a))
  }

  /** Three buffers of the padded size. */
  predicate Buffers(n: nat, sx: seq<real>, sy: seq<real>, sz: seq<real>)
  {
    |sx| == BufferLength(n) && |sy| == BufferLength(n) && |sz| == BufferLength(n)
  }

  /** The field vector of cell (ix, iy, iz): the three transformed buffers
      read at the cell's padded index. */
  function PaddedCell(n: nat, sx: seq<real>, sy: seq<real>, sz: seq<real>, ix: nat, iy: nat, iz: nat): Vector3
    requires Buffers(n, sx, sy, sz) && ix < n && iy < n && iz < n
  {
    PaddedIndexInRange(n, ix, iy, iz);
    var q := PaddedIndex(n, ix, iy, iz);
    Vector3(sx[q], sy[q], sz[q])
  }

  /** The value of cell c in the row-major cell order. */
  function CellValue(n: nat, sx: seq<real>, sy: seq<real>, sz: seq<real>, c: nat): Vector3
    requires n >= 1 && Buffers(n, sx, sy, sz) && c < CellCount(n)
  {
    CellDecomposeInRange(n, c);
    PaddedCell(n, sx, sy, sz, CellDecompose(n, c).0, CellDecompose(n, c).1, CellDecompose(n, c).2)
  }

  /** Cell (ix, iy, iz) is at position `CellIndex` of the cell order. */
  lemma {:induction false} CellValueAt(n: nat, sx: seq<real>, sy: seq<real>, sz: seq<real>, ix: nat, iy: nat, iz: nat)
    requires Buffers(n, sx, sy, sz) && ix < n && iy < n && iz < n
    ensures CellIndex(n, ix, iy, iz) < CellCount(n)
    ensures CellValue(n, sx, sy, sz, CellIndex(n, ix, iy, iz)) == PaddedCell(n, sx, sy, sz, ix, iy, iz)
  {
    CellRoundTrip(n, ix, iy, iz);
  }

  /** The first m cells in the order of the summation and storing loops.
      Cell c is tied to its padded sample only where a proof names that
      sample, so that summing the cells does not locate every cell it
      passes. */
  function CellPrefix(n: nat, sx: seq<real>, sy: seq<real>, sz: seq<real>, m: nat): (cs: seq<Vector3>)
    requires n >= 1 && Buffers(n, sx, sy, sz) && m <= CellCount(n)
    ensures |cs| == m
    ensures forall c {:trigger CellValue(n, sx, sy, sz, c)} :: 0 <= c < m ==> cs[c] == CellValue(n, sx, sy, sz, c)
  {
    if m == 0 then [] else CellPrefix(n, sx, sy, sz, m - 1) + [CellValue(n, sx, sy, sz, m - 1)]
  }

  /** The n^3 cells in the order of the summation and storing loops. */
  function Cells(n: nat, sx: seq<real>, sy: seq<real>, sz: seq<real>): (cs: seq<Vector3>)
    requires n >= 1 && Buffers(n, sx, sy, sz)
    ensures |cs| == CellCount(n)
    ensures forall c {:trigger CellValue(n, sx, sy, sz, c)} :: 0 <= c < |cs| ==> cs[c] == CellValue(n, sx, sy, sz, c)
  {
    CellPrefix(n, sx, sy, sz, CellCount(n))
  }

  /** cs holds the n^3 cells of the buffers in loop order, each cell tied
      to its padded sample only where a proof names that sample. */
  predicate CellsOf(n: nat, sx: seq<real>, sy: seq<real>, sz: seq<real>, cs: seq<Vector3>)
    requires n >= 1 && Buffers(n, sx, sy, sz)
  {
    |cs| == CellCount(n) &&
    forall c {:trigger CellValue(n, sx, sy, sz, c)} :: 0 <= c < |cs| ==> cs[c] == CellValue(n, sx, sy, sz, c)
  }

  /** The sum of the squares of the three components at position i, each
      squared through the library's power function. */
  function CellSquare(lib: Library, v: Vector3): real
  {
    lib.Pow(v.x, 2.0) + lib.Pow(v.y, 2.0) + lib.Pow(v.z, 2.0)
  }

  /** `sumB2` after the first c cells of the summation loop. */
  function SumB2(lib: Library, cs: seq<Vector3>, c: nat): real
    requires c <= |cs|
  {
    if c == 0 then 0.0 else SumB2(lib, cs, c - 1) + CellSquare(lib, cs[c - 1])
  }

  /** Every cell's sum of squared components is |B|^2. */
  ghost predicate CellSquaresAreNorms(lib: Library)
  {
    forall v :: CellSquare(lib, v) == Dot(v, v)
  }

  /** With `pow(x, 2) == x * x` the term of a cell is |B|^2. */
  lemma {:induction false} CellSquaresFromLaws(lib: Library)
    requires RootLaws(lib)
    ensures CellSquaresAreNorms(lib)
  {
  }

  /** With `pow(x, 2) == x * x`, `sumB2` is the sum of |B|^2. */
  lemma {:induction false} SumB2IsSquares(lib: Library, cs: seq<Vector3>, c: nat)
    requires RootLaws(lib) && c <= |cs|
    ensures SumB2(lib, cs, c) == Squares(cs, c)
  {
    CellSquaresFromLaws(lib);
    SumB2IsSumOfNorms(lib, cs, c);
  }

  /** When every cell's term is |B|^2, `sumB2` is the sum of |B|^2. */
  lemma {:induction false} SumB2IsSumOfNorms(lib: Library, cs: seq<Vector3>, c: nat)
    requires CellSquaresAreNorms(lib) && c <= |cs|
    ensures SumB2(lib, cs, c) == Squares(cs, c)
  {
    if c > 0 {
      SumB2IsSumOfNorms(lib, cs, c - 1);
      assert CellSquare(lib, cs[c - 1]) == Dot(cs[c - 1], cs[c - 1]);
    }
  }

  /** A sum of squared lengths is never negative. */
  lemma {:induction false} SquaresNonNegative(g: seq<Vector3>, c: nat)
    requires c <= |g|
    ensures Squares(g, c) >= 0.0
  {
    if c > 0 {
      SquaresNonNegative(g, c - 1);
      NormSquared(g[c - 1]);
    }
  }

  /** With `pow(x, 2) == x * x` each term is |B|^2, so the sum is never
      negative. */
  lemma {:induction false} SumB2NonNegative(lib: Library, cs: seq<Vector3>, c: nat)
    requires RootLaws(lib) && c <= |cs|
    ensures SumB2(lib, cs, c) >= 0.0
  {
    SumB2IsSquares(lib, cs, c);
    SquaresNonNegative(cs, c);
  }

  /** One step of the summation loop: cell c = (ix, iy, iz), read at the
      padded index i, adds its term to `sumB2`. */
  lemma {:induction false} SumB2Cell(lib: Library, n: nat, sx: seq<real>, sy: seq<real>, sz: seq<real>, cs: seq<Vector3>,
                                     ix: nat, iy: nat, iz: nat, c: nat, i: int)
    requires n >= 1 && Buffers(n, sx, sy, sz) && CellsOf(n, sx, sy, sz, cs)
    requires ix < n && iy < n && iz < n && c == CellIndex(n, ix, iy, iz) && i == PaddedIndex(n, ix, iy, iz)
    ensures c < |cs| && 0 <= i && i < |sx| && i < |sy| && i < |sz|
    ensures SumB2(lib, cs, c + 1) == SumB2(lib, cs, c) + (lib.Pow(sx[i], 2.0) + lib.Pow(sy[i], 2.0) + lib.Pow(sz[i], 2.0))
  {
    PaddedIndexInRange(n, ix, iy, iz);
    CellValueAt(n, sx, sy, sz, ix, iy, iz);
  }

  /** `sumB2 / (n * n * n)`: the mean square before normalisation. */
  function MeanB2(lib: Library, cs: seq<Vector3>): real
    requires |cs| > 0
  {
    SumB2(lib, cs, |cs|) / (|cs| as real)
  }

  /** The weight is defined when `sqrt(sumB2 / n^3)` is not zero. */
  predicate HasPower(lib: Library, cs: seq<Vector3>)
  {
    |cs| > 0 && lib.Sqrt(MeanB2(lib, cs)) != 0.0
  }

  /** For an exact square root, the weight is defined exactly when
      `sumB2 > 0`: the source divides by zero for an all-zero field. */
  lemma {:induction false} HasPowerIffPositive(lib: Library, cs: seq<Vector3>)
    requires RootLaws(lib) && |cs| > 0
    ensures HasPower(lib, cs) <==> SumB2(lib, cs, |cs|) > 0.0
  {
    SumB2NonNegative(lib, cs, |cs|);
    RootOfMeanIffPositive(lib, SumB2(lib, cs, |cs|), |cs| as real);
  }

  /** sqrt(s / N) vanishes exactly for s == 0 when s >= 0 and N > 0. */
  lemma {:induction false} RootOfMeanIffPositive(lib: Library, s: real, N: real)
    requires RootLaws(lib) && s >= 0.0 && N > 0.0
    ensures lib.Sqrt(s / N) != 0.0 <==> s > 0.0
  {
    var m := s / N;
    if s > 0.0 {
      Arithmetic.DivPositive(s, N, m);
      var r := RootOfPositive(lib, m);
    } else {
      assert m * N == s;
      assert m == 0.0 by {
        if m != 0.0 {
          Arithmetic.MulNonZero(m, N, s);
        }
      }
      var r := lib.Sqrt(m);
      assert r * r == m;
      Arithmetic.Square(r, m);
    }
  }

  /** The factor that scales the field: Brms over the root of the mean
      square, the mean being sumB2 over the n^3 cells. */
  function Weight(lib: Library, Brms: real, cs: seq<Vector3>): real
    requires HasPower(lib, cs)
  {
    Brms / lib.Sqrt(MeanB2(lib, cs))
  }

  /** Every cell multiplied by w. */
  function Scale(cs: seq<Vector3>, w: real): (g: seq<Vector3>)
    ensures |g| == |cs|
    ensures forall c :: 0 <= c < |cs| ==> g[c] == Mul(cs[c], w)
  {
    seq(|cs|, c requires 0 <= c < |cs| => Mul(cs[c], w))
  }

  /** The stored grid: every cell multiplied by `weight`. */
  function Normalized(lib: Library, Brms: real, cs: seq<Vector3>): seq<Vector3>
    requires HasPower(lib, cs)
  {
    Scale(cs, Weight(lib, Brms, cs))
  }

  /** The sum of |B|^2 over the first c cells. */
  function Squares(g: seq<Vector3>, c: nat): real
    requires c <= |g|
  {
    if c == 0 then 0.0 else Squares(g, c - 1) + Dot(g[c - 1], g[c - 1])
  }

  /** Scaling every cell by w scales the sum of squares by w^2. */
  lemma {:induction false} ScaledSquares(cs: seq<Vector3>, w: real, c: nat)
    requires c <= |cs|
    ensures Squares(Scale(cs, w), c) == w * w * Squares(cs, c)
  {
    if c > 0 {
      ScaledSquares(cs, w, c - 1);
      var v := cs[c - 1];
      DotMul(v, v, w);
      ScaleStep(w * w, Squares(Scale(cs, w), c - 1), Squares(cs, c - 1), Dot(v, v));
    } else {
      ScaleZero(w * w);
    }
  }

  /** ww * s + ww * d == ww * (s + d), with the two partial sums named. */
  lemma {:induction false} ScaleStep(ww: real, t: real, s: real, d: real)
    requires t == ww * s
    ensures t + ww * d == ww * (s + d)
  {
  }

  lemma {:induction false} ScaleZero(ww: real)
    ensures ww * 0.0 == 0.0
  {
  }

  /** `(B / r)^2 * S / N == B^2` when r^2 == S / N. */
  lemma {:induction false} MeanSquareAlgebra(B: real, r: real, m: real, w: real, S: real, N: real, T: real)
    requires r != 0.0 && N > 0.0 && r * r == m && m == S / N && w == B / r && T == w * w * S
    ensures T / N == B * B
  {
    assert w * r == B;
    assert S == m * N;
    assert T == (w * w * m) * N;
    assert w * w * m == (w * r) * (w * r);
  }

  /** After scaling by the weight, the cells have mean square `Brms^2`,
      given an exact square root and `pow(x, 2) == x * x`. */
  lemma {:induction false} MeanSquareIsBrms(lib: Library, Brms: real, cs: seq<Vector3>)
    requires RootLaws(lib) && HasPower(lib, cs)
    ensures |Normalized(lib, Brms, cs)| == |cs|
    ensures Squares(Normalized(lib, Brms, cs), |cs|) / (|cs| as real) == Brms * Brms
  {
    SumB2IsSquares(lib, cs, |cs|);
    var m, r := MeanRoot(lib, cs);
    NormalizedMeanSquare(lib, Brms, cs, SumB2(lib, cs, |cs|), m, r, Squares(Normalized(lib, Brms, cs), |cs|));
  }

  /** With the weight defined, the mean square m is positive, with a root r
      that squares back to it. */
  lemma {:induction false} MeanRoot(lib: Library, cs: seq<Vector3>) returns (m: real, r: real)
    requires RootLaws(lib) && HasPower(lib, cs)
    ensures m == MeanB2(lib, cs) && r == lib.Sqrt(m) && r * r == m && m > 0.0
  {
    m := MeanB2(lib, cs);
    HasPowerIffPositive(lib, cs);
    Arithmetic.DivPositive(SumB2(lib, cs, |cs|), |cs| as real, m);
    r := RootOfPositive(lib, m);
  }

  /** The same, from the two facts the laws give, with the sum S, the mean
      m, its root r and the sum T over the stored cells named: `sumB2` is
      the sum of |B|^2, and r squares back to m. */
  lemma {:induction false} NormalizedMeanSquare(lib: Library, Brms: real, cs: seq<Vector3>, S: real, m: real, r: real, T: real)
    requires HasPower(lib, cs) && S == SumB2(lib, cs, |cs|) && S == Squares(cs, |cs|)
    requires m == MeanB2(lib, cs) && r == lib.Sqrt(m) && r * r == m
    requires T == Squares(Normalized(lib, Brms, cs), |cs|)
    ensures T / (|cs| as real) == Brms * Brms
  {
    var c := |cs|;
    var w := Weight(lib, Brms, cs);
    ScaledSquaresOf(cs, w, c, S);
    MeanSquareAlgebra(Brms, r, m, w, S, c as real, T);
  }

  /** Scaling every cell by w scales a sum S of |B|^2 by w^2. */
  lemma {:induction false} ScaledSquaresOf(cs: seq<Vector3>, w: real, c: nat, S: real)
    requires c <= |cs| && S == Squares(cs, c)
    ensures Squares(Scale(cs, w), c) == w * w * S
  {
    ScaledSquares(cs, w, c);
  }
}
