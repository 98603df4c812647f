/** The Fourier-space field of the synthesis: which wavevectors carry
    power, the orthogonal basis perpendicular to a wavevector, the complex
    coefficient built from three random draws, and the three half-size
    complex buffers the nested loops fill. Line numbers refer to
    src/magneticField/turbulentMagneticFieldGrid.cpp. */
module Spectrum {

  import opened Arithmetic
  import opened Vectors
  import opened GridLayout
  import opened Randomness
  import opened Numerics

  /** `M_PI` */
  const Pi: real := 3.14159265358979323846

  /** The angle tolerance passed to the parallelism test, `1e-6`. */
  const Tolerance: real := 0.000001

  /** The auxiliary direction (1, 1, 1) used to build the basis. */
  const N0: Vector3 := Vector3(1.0, 1.0, 1.0)

  /** The parameters of a turbulent grid: `samples`, `spacing`, `lMin`,
      `lMax`, `Brms` and `powerSpectralIndex`. */
  datatype Params = Params(n: nat, spacing: real, lMin: real, lMax: real, Brms: real, alpha: real)

  /** At least two samples (for n = 1 the table divides by n / 2 == 0) and
      positive cell size and length scales (the band limits divide by the
      length scales). */
  predicate ValidParams(p: Params)
  {
    p.n >= 2 && p.spacing > 0.0 && p.lMin > 0.0 && p.lMax > 0.0
  }

  /** The smallest wave number kept: the spacing over the largest scale. */
  function KMin(p: Params): (r: real)
    requires ValidParams(p)
    ensures r > 0.0
  {
    DivPositive(p.spacing, p.lMax, p.spacing / p.lMax);
    p.spacing / p.lMax
  }

  /** The largest wave number kept: the spacing over the smallest scale. */
  function KMax(p: Params): (r: real)
    requires ValidParams(p)
    ensures r > 0.0
  {
    DivPositive(p.spacing, p.lMin, p.spacing / p.lMin);
    p.spacing / p.lMin
  }

  /** A wavevector carries power unless `k < kMin || k > kMax`. */
  predicate InBand(lib: Library, p: Params, ek: Vector3)
    requires ValidParams(p)
  {
    var k := lib.Mag(ek);
    !(k < KMin(p) || k > KMax(p))
  }

  /** The band starts above zero, so an in-band wavevector is not the zero
      vector and its basis is defined. */
  lemma {:induction false} InBandNonZero(lib: Library, p: Params, ek: Vector3)
    requires MagnitudeLaws(lib) && ValidParams(p) && InBand(lib, p, ek)
    ensures ek != Zero
  {
    MagnitudeNonZero(lib, ek);
  }

  // ---------------------------------------------------------------------
  // Orthogonal basis
  // ---------------------------------------------------------------------

  /** The two basis vectors as lines 66-73 choose them: the fixed pair
      (-1,1,0), (1,1,-2) when the parallelism test reports ek parallel to
      (1,1,1), and otherwise e1 = n0 x ek and e2 = ek x e1. */
  function RawBasisAsWritten(lib: Library, ek: Vector3): (Vector3, Vector3)
  {
    if lib.IsParallel(ek, N0, Tolerance) then
      (Vector3(-1.0, 1.0, 0.0), Vector3(1.0, 1.0, -2.0))
    else
      (Cross(N0, ek), Cross(ek, Cross(N0, ek)))
  }

  /** The loops always visit the wavevector (n/2, n/2, n/2) (here for even
      n), which is K[n/2] = -1/2 times (1,1,1): anti-parallel to (1,1,1).
      A parallelism test by angle reports "not parallel" for it (the angle
      is pi), and then the branch as written takes e1 = n0 x ek, which is
      the zero vector, so `e1.mag()` is zero and line 75 divides by zero. */
  lemma {:induction false} AntiParallelSlot(lib: Library, n: nat)
    requires MagnitudeLaws(lib) && n >= 2 && n % 2 == 0
    ensures n / 2 < HalfSize(n)
    ensures Vector3(WaveNumber(n, n / 2), WaveNumber(n, n / 2), WaveNumber(n, n / 2)) == Vector3(-0.5, -0.5, -0.5)
    ensures Cross(N0, Vector3(-0.5, -0.5, -0.5)) == Zero && Dot(N0, Vector3(-0.5, -0.5, -0.5)) < 0.0
    ensures !lib.IsParallel(Vector3(-0.5, -0.5, -0.5), N0, Tolerance) ==>
      RawBasisAsWritten(lib, Vector3(-0.5, -0.5, -0.5)).0 == Zero &&
      lib.Mag(RawBasisAsWritten(lib, Vector3(-0.5, -0.5, -0.5)).0) == 0.0
  {
    WaveNumberEven(n, n / 2);
    assert ((n / 2) as real) / (n as real) == 0.5 by {
      assert (n as real) == 2.0 * ((n / 2) as real);
    }
  }

  /** `e1` and `e2` before the division by their magnitudes, with the
      degenerate direction handled as evidently intended: the fixed pair
      (-1,1,0), (1,1,-2) is taken when the parallelism test reports ek
      parallel to (1,1,1) and also when n0 x ek vanishes, that is, when
      ek is anti-parallel to (1,1,1) and the test says otherwise. */
  function RawBasis(lib: Library, ek: Vector3): (Vector3, Vector3)
  {
    if lib.IsParallel(ek, N0, Tolerance) || Cross(N0, ek) == Zero then
      (Vector3(-1.0, 1.0, 0.0), Vector3(1.0, 1.0, -2.0))
    else
      (Cross(N0, ek), Cross(ek, Cross(N0, ek)))
  }

  /** The corrected basis differs from the basis as written only where the
      latter has a zero e1. */
  lemma {:induction false} RawBasisCorrection(lib: Library, ek: Vector3)
    ensures RawBasis(lib, ek) != RawBasisAsWritten(lib, ek) ==> RawBasisAsWritten(lib, ek).0 == Zero
    ensures RawBasisAsWritten(lib, ek).0 != Zero ==> RawBasis(lib, ek) == RawBasisAsWritten(lib, ek)
  {
  }

  /** For every non-zero ek, whatever the parallelism test answers, the raw
      basis vectors are non-zero and orthogonal to each other; they are
      orthogonal to (1,1,1) when the fixed pair is taken, and to ek in the
      cross-product branch or whenever ek is exactly parallel or
      anti-parallel to (1,1,1). */
  lemma {:induction false} RawBasisOrthogonal(lib: Library, ek: Vector3)
    requires ek != Zero
    ensures RawBasis(lib, ek).0 != Zero && RawBasis(lib, ek).1 != Zero
    ensures Dot(RawBasis(lib, ek).0, RawBasis(lib, ek).1) == 0.0
    ensures lib.IsParallel(ek, N0, Tolerance) ==>
      Dot(N0, RawBasis(lib, ek).0) == 0.0 && Dot(N0, RawBasis(lib, ek).1) == 0.0
    ensures !lib.IsParallel(ek, N0, Tolerance) || Cross(ek, N0) == Zero ==>
      Dot(ek, RawBasis(lib, ek).0) == 0.0 && Dot(ek, RawBasis(lib, ek).1) == 0.0
  {
    var e1 := Cross(N0, ek);
    if !lib.IsParallel(ek, N0, Tolerance) && e1 != Zero {
      CrossPerpendicular(N0, ek);
      assert Dot(ek, e1) == 0.0;
      CrossPerpendicular(ek, e1);
      CrossOfPerpendicularNonZero(ek, e1);
    }
  }

  /** The raw basis vectors divided by their magnitudes (lines 75-76). */
  function Basis(lib: Library, ek: Vector3): (Vector3, Vector3)
    requires MagnitudeLaws(lib) && ek != Zero
  {
    var e1, e2 := RawBasis(lib, ek).0, RawBasis(lib, ek).1;
    RawBasisOrthogonal(lib, ek);
    MagnitudeNonZero(lib, e1);
    MagnitudeNonZero(lib, e2);
    (Div(e1, lib.Mag(e1)), Div(e2, lib.Mag(e2)))
  }

  /** The normalisation keeps the basis vectors non-zero and keeps every
      orthogonality of the raw basis. */
  lemma {:induction false} BasisOrthogonal(lib: Library, ek: Vector3)
    requires MagnitudeLaws(lib) && ek != Zero
    ensures Basis(lib, ek).0 != Zero && Basis(lib, ek).1 != Zero
    ensures Dot(Basis(lib, ek).0, Basis(lib, ek).1) == 0.0
    ensures lib.IsParallel(ek, N0, Tolerance) ==>
      Dot(N0, Basis(lib, ek).0) == 0.0 && Dot(N0, Basis(lib, ek).1) == 0.0
    ensures !lib.IsParallel(ek, N0, Tolerance) || Cross(ek, N0) == Zero ==>
      Dot(ek, Basis(lib, ek).0) == 0.0 && Dot(ek, Basis(lib, ek).1) == 0.0
  {
    var e1, e2 := RawBasis(lib, ek).0, RawBasis(lib, ek).1;
    RawBasisOrthogonal(lib, ek);
    MagnitudeNonZero(lib, e1);
    MagnitudeNonZero(lib, e2);
    var m1, m2 := lib.Mag(e1), lib.Mag(e2);
    assert Basis(lib, ek) == (Div(e1, m1), Div(e2, m2));
    NormalizedOrthogonal(e1, e2, m1, m2);
    if lib.IsParallel(ek, N0, Tolerance) {
      NormalizedPerpendicular(N0, e1, e2, m1, m2);
    }
    if !lib.IsParallel(ek, N0, Tolerance) || Cross(ek, N0) == Zero {
      NormalizedPerpendicular(ek, e1, e2, m1, m2);
    }
  }

  /** A non-zero vector divided by its Euclidean `mag` is a unit vector. */
  lemma {:induction false} UnitByMagnitude(lib: Library, v: Vector3)
    requires MagnitudeLaws(lib) && NormLaws(lib) && v != Zero
    ensures lib.Mag(v) != 0.0 && Dot(Div(v, lib.Mag(v)), Div(v, lib.Mag(v))) == 1.0
  {
    MagnitudeNonZero(lib, v);
    MagSquared(lib, v);
    UnitDiv(v, lib.Mag(v));
  }

  /** With `mag` the Euclidean length, the division of lines 75-76 makes
      both basis vectors unit vectors. */
  lemma {:induction false} BasisUnit(lib: Library, ek: Vector3)
    requires MagnitudeLaws(lib) && NormLaws(lib) && ek != Zero
    ensures Dot(Basis(lib, ek).0, Basis(lib, ek).0) == 1.0
    ensures Dot(Basis(lib, ek).1, Basis(lib, ek).1) == 1.0
  {
    var e1, e2 := RawBasis(lib, ek).0, RawBasis(lib, ek).1;
    RawBasisOrthogonal(lib, ek);
    MagnitudeNonZero(lib, e1);
    MagnitudeNonZero(lib, e2);
    assert Basis(lib, ek) == (Div(e1, lib.Mag(e1)), Div(e2, lib.Mag(e2)));
    UnitByMagnitude(lib, e1);
    UnitByMagnitude(lib, e2);
  }

  // ---------------------------------------------------------------------
  // Coefficient of one wavevector
  // ---------------------------------------------------------------------

  /** The complex vector coefficient B(k) of one wavevector: the real parts
      `Bk*[i][0]` and the imaginary parts `Bk*[i][1]`. */
  datatype Mode = Mode(re: Vector3, im: Vector3)

  /** For any coefficients, a combination of two vectors perpendicular to
      ek, scaled and multiplied by the two phase factors, stays
      perpendicular to ek. */
  lemma {:induction false} TransverseCombination(ek: Vector3, e1: Vector3, e2: Vector3, c: real, s: real, a: real, cp: real, sp: real)
    ensures Dot(ek, e1) == 0.0 && Dot(ek, e2) == 0.0 ==>
      Dot(ek, Mul(Mul(Add(Mul(e1, c), Mul(e2, s)), a), cp)) == 0.0 &&
      Dot(ek, Mul(Mul(Add(Mul(e1, c), Mul(e2, s)), a), sp)) == 0.0
  {
    if Dot(ek, e1) == 0.0 && Dot(ek, e2) == 0.0 {
      TransverseCombinationOf(ek, e1, e2, c, s, a, cp, sp);
    }
  }

  lemma {:induction false} TransverseCombinationOf(ek: Vector3, e1: Vector3, e2: Vector3, c: real, s: real, a: real, cp: real, sp: real)
    requires Dot(ek, e1) == 0.0 && Dot(ek, e2) == 0.0
    ensures Dot(ek, Mul(Mul(Add(Mul(e1, c), Mul(e2, s)), a), cp)) == 0.0
    ensures Dot(ek, Mul(Mul(Add(Mul(e1, c), Mul(e2, s)), a), sp)) == 0.0
  {
    var b := Add(Mul(e1, c), Mul(e2, s));
    DotLinear(ek, e1, e2, c, s);
    assert Dot(ek, b) == 0.0;
    DotMul(ek, b, a);
    var b' := Mul(b, a);
    assert Dot(ek, b') == 0.0;
    DotMul(ek, b', cp);
    DotMul(ek, b', sp);
  }

  /** The mode of polarisation e1 c + e2 s and amplitude a, with the phase
      factors cp and sp for the real and the imaginary part. */
  function Polarized(e1: Vector3, e2: Vector3, c: real, s: real, a: real, cp: real, sp: real): Mode
  {
    var b := Mul(Add(Mul(e1, c), Mul(e2, s)), a);
    Mode(Mul(b, cp), Mul(b, sp))
  }

  /** The polarisation of two perpendicular unit vectors with c^2 + s^2 = 1
      is a unit vector, so the two parts of the mode together have squared
      length a^2 when the phase factors' squares add up to one. */
  lemma {:induction false} PolarizedAmplitude(e1: Vector3, e2: Vector3, c: real, s: real, a: real, cp: real, sp: real)
    requires Dot(e1, e1) == 1.0 && Dot(e2, e2) == 1.0 && Dot(e1, e2) == 0.0
    requires c * c + s * s == 1.0 && cp * cp + sp * sp == 1.0
    ensures Dot(Polarized(e1, e2, c, s, a, cp, sp).re, Polarized(e1, e2, c, s, a, cp, sp).re) +
      Dot(Polarized(e1, e2, c, s, a, cp, sp).im, Polarized(e1, e2, c, s, a, cp, sp).im) == a * a
  {
    PhasedAmplitude(e1, e2, c, s, a, cp, sp);
  }

  /** For a library with the Euclidean `mag` and cos^2 + sin^2 = 1, the
      mode built on the basis of ek with angles theta and phase and
      amplitude a has squared length a^2 over its two parts. */
  lemma {:induction false} ModeAmplitude(lib: Library, ek: Vector3, theta: real, phase: real, a: real)
    requires MagnitudeLaws(lib) && ek != Zero
    ensures NormLaws(lib) && TrigLaws(lib) ==>
      var m := Polarized(Basis(lib, ek).0, Basis(lib, ek).1, lib.Cos(theta), lib.Sin(theta), a, lib.Cos(phase), lib.Sin(phase));
      Dot(m.re, m.re) + Dot(m.im, m.im) == a * a
  {
    if NormLaws(lib) && TrigLaws(lib) {
      var e1, e2 := Basis(lib, ek).0, Basis(lib, ek).1;
      var c, s, cp, sp := lib.Cos(theta), lib.Sin(theta), lib.Cos(phase), lib.Sin(phase);
      BasisOrthogonal(lib, ek);
      BasisUnit(lib, ek);
      TrigSquares(lib, theta);
      TrigSquares(lib, phase);
      PolarizedAmplitude(e1, e2, c, s, a, cp, sp);
    }
  }

  /** Lines 78-95 for the draws u1 (`rand`), g (`randNorm`) and u2
      (`rand`): e1 times the cosine of theta plus e2 times its sine, with
      theta = 2 pi u1, scaled by g * k^(alpha/2), rotated by the phase
      2 pi u2. It is transverse, and for a Euclidean `mag` and exact
      trigonometry its two parts together have squared length
      (g * k^(alpha/2))^2. */
  function Coefficient(lib: Library, p: Params, ek: Vector3, u1: real, g: real, u2: real): (m: Mode)
    requires MagnitudeLaws(lib) && ek != Zero
    ensures !lib.IsParallel(ek, N0, Tolerance) || Cross(ek, N0) == Zero ==>
      Dot(ek, m.re) == 0.0 && Dot(ek, m.im) == 0.0
    ensures lib.IsParallel(ek, N0, Tolerance) ==>
      Dot(N0, m.re) == 0.0 && Dot(N0, m.im) == 0.0
    ensures NormLaws(lib) && TrigLaws(lib) ==>
      Dot(m.re, m.re) + Dot(m.im, m.im) == (g * lib.Pow(lib.Mag(ek), p.alpha / 2.0)) * (g * lib.Pow(lib.Mag(ek), p.alpha / 2.0))
  {
    BasisOrthogonal(lib, ek);
    var e1, e2 := Basis(lib, ek).0, Basis(lib, ek).1;
    var theta := 2.0 * Pi * u1;
    var a := g * lib.Pow(lib.Mag(ek), p.alpha / 2.0);
    var phase := 2.0 * Pi * u2;
    var c, s, cp, sp := lib.Cos(theta), lib.Sin(theta), lib.Cos(phase), lib.Sin(phase);
    TransverseCombination(N0, e1, e2, c, s, a, cp, sp);
    TransverseCombination(ek, e1, e2, c, s, a, cp, sp);
    ModeAmplitude(lib, ek, theta, phase, a);
    Polarized(e1, e2, c, s, a, cp, sp)
  }

  // ---------------------------------------------------------------------
  // The half-size complex buffers
  // ---------------------------------------------------------------------

  /** The wavevector of slot j: the wave numbers of its three indices. */
  function SlotVector(p: Params, j: nat): Vector3
    requires p.n >= 2
  {
    var (ix, iy, iz) := Decompose(p.n, j);
    Vector3(WaveNumber(p.n, ix), WaveNumber(p.n, iy), WaveNumber(p.n, iz))
  }

  /** The in-band flags of the first m slots in the visiting order. The
      flag of slot i is tied to the band test of its wavevector only where
      a proof names that wavevector, so that counting the in-band slots
      does not evaluate every wavevector it passes. */
  function BandFlags(lib: Library, p: Params, m: nat): (t: seq<bool>)
    requires ValidParams(p)
    ensures |t| == m
    ensures forall i {:trigger SlotVector(p, i)} :: 0 <= i < m ==> t[i] == InBand(lib, p, SlotVector(p, i))
  {
    if m == 0 then [] else BandFlags(lib, p, m - 1) + [InBand(lib, p, SlotVector(p, m - 1))]
  }

  /** Slot j is one of the n * n * n2 slots and its wavevector carries
      power. */
  predicate SlotInBand(lib: Library, p: Params, j: nat)
    requires ValidParams(p)
  {
    j < SlotCount(p.n) && BandFlags(lib, p, SlotCount(p.n))[j]
  }

  /** Number of in-band slots before slot j in the visiting order. */
  function CountInBand(lib: Library, p: Params, j: nat): (c: nat)
    requires ValidParams(p)
    ensures c <= j
  {
    if j == 0 then 0
    else CountInBand(lib, p, j - 1) + (if SlotInBand(lib, p, j - 1) then 1 else 0)
  }

  /** The coefficient stored in slot j when the synthesis starts from the
      generator state `st`: zero out of band; otherwise the coefficient
      made of the three draws that follow the 3 * CountInBand(j) draws of
      the earlier in-band slots. */
  function SlotMode(lib: Library, p: Params, st: Stream, j: nat): Mode
    requires MagnitudeLaws(lib) && ValidParams(p)
  {
    var ek := SlotVector(p, j);
    if !InBand(lib, p, ek) then Mode(Zero, Zero)
    else
      InBandNonZero(lib, p, ek);
      var h := Triples(CountInBand(lib, p, j));
      Coefficient(lib, p, ek,
        Draw(st, h + [Uniform]),
        Draw(st, h + [Uniform, Normal]),
        Draw(st, h + [Uniform, Normal, Uniform]))
  }

  datatype Axis = X | Y | Z

  function Component(v: Vector3, a: Axis): real
  {
    match a
    case X => v.x
    case Y => v.y
    case Z => v.z
  }

  /** Double m of buffer `Bk<a>`: the real (even m) or imaginary (odd m)
      part of component a of the coefficient in slot m / 2. */
  function SpectrumEntry(lib: Library, p: Params, st: Stream, a: Axis, m: nat): real
    requires MagnitudeLaws(lib) && ValidParams(p)
  {
    var mode := SlotMode(lib, p, st, m / 2);
    Component(if m % 2 == 0 then mode.re else mode.im, a)
  }

  /** The whole buffer `Bk<a>` as filled by the nested loops. */
  function SpectrumBuffer(lib: Library, p: Params, st: Stream, a: Axis): (s: seq<real>)
    requires MagnitudeLaws(lib) && ValidParams(p)
    ensures |s| == BufferLength(p.n)
    ensures forall m :: 0 <= m < |s| ==> s[m] == SpectrumEntry(lib, p, st, a, m)
  {
    seq(BufferLength(p.n), m requires 0 <= m => SpectrumEntry(lib, p, st, a, m))
  }

  // ---------------------------------------------------------------------
  // Properties of the filled buffers
  // ---------------------------------------------------------------------

  /** The slot of wavevector (ix, iy, iz) holds `(K[ix], K[iy], K[iz])`. */
  lemma {:induction false} SlotVectorAt(p: Params, ix: nat, iy: nat, iz: nat)
    requires p.n >= 2 && ix < p.n && iy < p.n && iz < HalfSize(p.n)
    ensures SlotVector(p, SlotIndex(p.n, ix, iy, iz)) ==
      Vector3(WaveNumber(p.n, ix), WaveNumber(p.n, iy), WaveNumber(p.n, iz))
  {
    SlotRoundTrip(p.n, ix, iy, iz);
  }

  /** An out-of-band wavevector (ix, iy, iz): its slot holds the zero
      mode and consumes no draw. */
  lemma {:induction false} SlotStepOutOfBand(lib: Library, p: Params, st: Stream, ix: nat, iy: nat, iz: nat)
    requires MagnitudeLaws(lib) && ValidParams(p) && ix < p.n && iy < p.n && iz < HalfSize(p.n)
    requires !InBand(lib, p, Vector3(WaveNumber(p.n, ix), WaveNumber(p.n, iy), WaveNumber(p.n, iz)))
    ensures SlotIndex(p.n, ix, iy, iz) < SlotCount(p.n)
    ensures SlotMode(lib, p, st, SlotIndex(p.n, ix, iy, iz)) == Mode(Zero, Zero)
    ensures CountInBand(lib, p, SlotIndex(p.n, ix, iy, iz) + 1) == CountInBand(lib, p, SlotIndex(p.n, ix, iy, iz))
  {
    var j := SlotIndex(p.n, ix, iy, iz);
    SlotIndexInRange(p.n, ix, iy, iz);
    SlotVectorAt(p, ix, iy, iz);
    OutOfBandMode(lib, p, st, j);
  }

  /** An in-band wavevector ek = (ix, iy, iz): its slot holds the
      coefficient of the three draws that follow those of the earlier
      in-band slots, and consumes them. */
  lemma {:induction false} SlotStepInBand(lib: Library, p: Params, st: Stream, ix: nat, iy: nat, iz: nat, ek: Vector3)
    requires MagnitudeLaws(lib) && ValidParams(p) && ix < p.n && iy < p.n && iz < HalfSize(p.n)
    requires ek == Vector3(WaveNumber(p.n, ix), WaveNumber(p.n, iy), WaveNumber(p.n, iz)) && InBand(lib, p, ek)
    ensures SlotIndex(p.n, ix, iy, iz) < SlotCount(p.n) && ek != Zero
    ensures var j := SlotIndex(p.n, ix, iy, iz);
      var h := st.before + Triples(CountInBand(lib, p, j));
      SlotMode(lib, p, st, j) == Coefficient(lib, p, ek,
        st.source.Value(st.seed, h + [Uniform]),
        st.source.Value(st.seed, h + [Uniform, Normal]),
        st.source.Value(st.seed, h + [Uniform, Normal, Uniform]))
    ensures CountInBand(lib, p, SlotIndex(p.n, ix, iy, iz) + 1) == CountInBand(lib, p, SlotIndex(p.n, ix, iy, iz)) + 1
  {
    var j := SlotIndex(p.n, ix, iy, iz);
    SlotIndexInRange(p.n, ix, iy, iz);
    SlotVectorAt(p, ix, iy, iz);
    InBandMode(lib, p, st, j);
  }

  /** An out-of-band slot holds the zero mode. */
  lemma {:induction false} OutOfBandMode(lib: Library, p: Params, st: Stream, j: nat)
    requires MagnitudeLaws(lib) && ValidParams(p) && j < SlotCount(p.n) && !SlotInBand(lib, p, j)
    ensures SlotMode(lib, p, st, j) == Mode(Zero, Zero)
  {
  }

  /** An in-band slot holds the coefficient of the three draws that follow
      the draws of the earlier in-band slots. */
  lemma {:induction false} InBandMode(lib: Library, p: Params, st: Stream, j: nat)
    requires MagnitudeLaws(lib) && ValidParams(p) && SlotInBand(lib, p, j)
    ensures SlotVector(p, j) != Zero
    ensures var h := st.before + Triples(CountInBand(lib, p, j));
      SlotMode(lib, p, st, j) == Coefficient(lib, p, SlotVector(p, j),
        st.source.Value(st.seed, h + [Uniform]),
        st.source.Value(st.seed, h + [Uniform, Normal]),
        st.source.Value(st.seed, h + [Uniform, Normal, Uniform]))
  {
    InBandNonZero(lib, p, SlotVector(p, j));
    var h := Triples(CountInBand(lib, p, j));
    assert st.before + h + [Uniform] == st.before + (h + [Uniform]);
    assert st.before + h + [Uniform, Normal] == st.before + (h + [Uniform, Normal]);
    assert st.before + h + [Uniform, Normal, Uniform] == st.before + (h + [Uniform, Normal, Uniform]);
  }

  /** Out of band all six doubles of the slot are zero. */
  lemma {:induction false} OutOfBandIsZero(lib: Library, p: Params, st: Stream, j: nat, a: Axis)
    requires MagnitudeLaws(lib) && ValidParams(p) && j < SlotCount(p.n)
    requires !SlotInBand(lib, p, j)
    ensures SpectrumBuffer(lib, p, st, a)[2 * j] == 0.0
    ensures SpectrumBuffer(lib, p, st, a)[2 * j + 1] == 0.0
  {
    assert (2 * j) / 2 == j && (2 * j + 1) / 2 == j;
  }

  /** The real-part vector and the imaginary-part vector stored in slot j
      are perpendicular to the slot's wavevector (the field is transverse),
      unless the parallelism test answered "parallel" for a wavevector that
      is not exactly parallel to (1,1,1); they are always perpendicular to
      (1,1,1) when the test answered "parallel". */
  lemma {:induction false} SlotTransverse(lib: Library, p: Params, st: Stream, j: nat)
    requires MagnitudeLaws(lib) && ValidParams(p) && j < SlotCount(p.n)
    ensures var ek := SlotVector(p, j);
      var re := Vector3(SpectrumBuffer(lib, p, st, X)[2 * j], SpectrumBuffer(lib, p, st, Y)[2 * j], SpectrumBuffer(lib, p, st, Z)[2 * j]);
      var im := Vector3(SpectrumBuffer(lib, p, st, X)[2 * j + 1], SpectrumBuffer(lib, p, st, Y)[2 * j + 1], SpectrumBuffer(lib, p, st, Z)[2 * j + 1]);
      (!lib.IsParallel(ek, N0, Tolerance) || Cross(ek, N0) == Zero ==> Dot(ek, re) == 0.0 && Dot(ek, im) == 0.0) &&
      (lib.IsParallel(ek, N0, Tolerance) ==> Dot(N0, re) == 0.0 && Dot(N0, im) == 0.0)
  {
    assert (2 * j) / 2 == j && (2 * j + 1) / 2 == j;
    var mode := SlotMode(lib, p, st, j);
    assert Vector3(SpectrumBuffer(lib, p, st, X)[2 * j], SpectrumBuffer(lib, p, st, Y)[2 * j], SpectrumBuffer(lib, p, st, Z)[2 * j]) == mode.re;
    assert Vector3(SpectrumBuffer(lib, p, st, X)[2 * j + 1], SpectrumBuffer(lib, p, st, Y)[2 * j + 1], SpectrumBuffer(lib, p, st, Z)[2 * j + 1]) == mode.im;
  }
}
