/** The turbulent magnetic field grid: an n x n x n grid of field vectors
    synthesised from a random spectrum. The object stores its parameters,
    a random generator and the grid; `initialize` fills three complex
    buffers wavevector by wavevector, transforms them to real space, sums
    the squares of the n^3 samples and stores every sample scaled by the
    weight that gives the grid the requested root mean square. Line
    numbers refer to src/magneticField/turbulentMagneticFieldGrid.cpp. */
module TurbulentField {

  import opened Vectors
  import opened GridLayout
  import opened Randomness
  import opened Numerics
  import opened Spectrum
  import opened Normalization

  // ---------------------------------------------------------------------
  // The field a synthesis produces
  // ---------------------------------------------------------------------

  /** The n^3 transformed samples, before normalisation, of a synthesis
      that starts from the generator state `st`. */
  function ExpectedCells(lib: Library, p: Params, st: Stream, c2r: C2R): seq<Vector3>
    requires MagnitudeLaws(lib) && ValidParams(p)
  {
    Cells(p.n, Transformed(lib, p, st, c2r, X), Transformed(lib, p, st, c2r, Y), Transformed(lib, p, st, c2r, Z))
  }

  /** The synthesis is defined: `sqrt(sumB2 / n^3)` is not zero. */
  ghost predicate Synthesizable(lib: Library, p: Params, st: Stream, c2r: C2R)
  {
    MagnitudeLaws(lib) && ValidParams(p) && HasPower(lib, ExpectedCells(lib, p, st, c2r))
  }

  /** The grid a synthesis stores, cell by cell in row-major order. */
  function ExpectedGrid(lib: Library, p: Params, st: Stream, c2r: C2R): seq<Vector3>
    requires Synthesizable(lib, p, st, c2r)
  {
    Normalized(lib, p.Brms, ExpectedCells(lib, p, st, c2r))
  }

  /** The stored grid has n^3 cells and mean square `Brms^2`. */
  lemma {:induction false} GridMeanSquare(lib: Library, p: Params, st: Stream, c2r: C2R)
    requires RootLaws(lib) && Synthesizable(lib, p, st, c2r)
    ensures |ExpectedGrid(lib, p, st, c2r)| == CellCount(p.n)
    ensures Squares(ExpectedGrid(lib, p, st, c2r), CellCount(p.n)) / (CellCount(p.n) as real) == p.Brms * p.Brms
  {
    MeanSquareIsBrms(lib, p.Brms, ExpectedCells(lib, p, st, c2r));
  }

  /** Cell (a, b, c) of the grid a synthesis stores: the padded sample of
      the transformed buffers times the weight. */
  function GridCell(lib: Library, p: Params, st: Stream, c2r: C2R, a: nat, b: nat, c: nat): Vector3
    requires Synthesizable(lib, p, st, c2r) && a < p.n && b < p.n && c < p.n
  {
    StoredValue(p.n, Transformed(lib, p, st, c2r, X), Transformed(lib, p, st, c2r, Y), Transformed(lib, p, st, c2r, Z),
                Weight(lib, p.Brms, ExpectedCells(lib, p, st, c2r)), a, b, c)
  }

  /** The cell that the storing loops write at (a, b, c) is the one at
      position `(a * n + b) * n + c` of the expected grid. */
  lemma {:induction false} GridCellInOrder(lib: Library, p: Params, st: Stream, c2r: C2R, a: nat, b: nat, c: nat)
    requires Synthesizable(lib, p, st, c2r) && a < p.n && b < p.n && c < p.n
    ensures CellIndex(p.n, a, b, c) < |ExpectedGrid(lib, p, st, c2r)|
    ensures ExpectedGrid(lib, p, st, c2r)[CellIndex(p.n, a, b, c)] == GridCell(lib, p, st, c2r, a, b, c)
  {
    var sx, sy, sz := Transformed(lib, p, st, c2r, X), Transformed(lib, p, st, c2r, Y), Transformed(lib, p, st, c2r, Z);
    CellValueAt(p.n, sx, sy, sz, a, b, c);
  }

  // ---------------------------------------------------------------------
  // The steps of `initialize`
  // ---------------------------------------------------------------------

  /** The loop of lines 34-35, which fills the wave-number table entry by
      entry. The table is only read afterwards, so it is a sequence value. */
  method WaveNumbers(n: nat) returns (K: seq<real>)
    requires n >= 2
    ensures K == WaveTable(n)
  {
    K := [];
    var i := 0;
    while i < n
      invariant 0 <= i <= n && |K| == i
      invariant forall m :: 0 <= m < i ==> K[m] == WaveNumber(n, m)
    {
      K := K + [(i as real) / (n as real) - ((i / (n / 2)) as real)];
      i := i + 1;
    }
  }

  /** Lines 66-95 for one in-band wavevector: the orthogonal basis of
      lines 66-76, then `rand`, `randNorm` and `rand` for the orientation,
      the amplitude and the phase. */
  method SampleMode(lib: Library, p: Params, random: Random, ek: Vector3) returns (m: Mode)
    requires MagnitudeLaws(lib) && ek != Zero
    modifies random
    ensures random.seed == old(random.seed)
    ensures random.calls == old(random.calls) + [Uniform, Normal, Uniform]
    ensures m == Coefficient(lib, p, ek,
      random.source.Value(random.seed, old(random.calls) + [Uniform]),
      random.source.Value(random.seed, old(random.calls) + [Uniform, Normal]),
      random.source.Value(random.seed, old(random.calls) + [Uniform, Normal, Uniform]))
  {
    var u1 := random.Rand();
    var g := random.RandNorm();
    var u2 := random.Rand();
    m := Coefficient(lib, p, ek, u1, g, u2);
    assert old(random.calls) + [Uniform] + [Normal] == old(random.calls) + [Uniform, Normal];
    assert old(random.calls) + [Uniform, Normal] + [Uniform] == old(random.calls) + [Uniform, Normal, Uniform];
  }

  /** The prefix `s[..upto]` of a buffer holds the filled spectrum. */
  ghost predicate Filled(lib: Library, p: Params, st: Stream, a: Axis, s: seq<real>, upto: nat)
    requires MagnitudeLaws(lib) && ValidParams(p)
  {
    upto <= |s| && forall m {:trigger SpectrumEntry(lib, p, st, a, m)} :: 0 <= m < upto ==> s[m] == SpectrumEntry(lib, p, st, a, m)
  }

  /** Writing the entry of position k extends the filled prefix by one
      position. */
  lemma {:induction false} FilledExtend(lib: Library, p: Params, st: Stream, a: Axis, s: seq<real>, k: nat, v: real)
    requires MagnitudeLaws(lib) && ValidParams(p) && k < |s|
    requires Filled(lib, p, st, a, s, k) && v == SpectrumEntry(lib, p, st, a, k)
    ensures Filled(lib, p, st, a, s[k := v], k + 1)
  {
  }

  /** Positions 2j and 2j+1 of a buffer hold the real and the imaginary part
      of slot j. */
  lemma {:induction false} SlotEntries(lib: Library, p: Params, st: Stream, a: Axis, j: nat)
    requires MagnitudeLaws(lib) && ValidParams(p)
    ensures SpectrumEntry(lib, p, st, a, 2 * j) == Component(SlotMode(lib, p, st, j).re, a)
    ensures SpectrumEntry(lib, p, st, a, 2 * j + 1) == Component(SlotMode(lib, p, st, j).im, a)
  {
    assert (2 * j) / 2 == j && (2 * j) % 2 == 0;
    assert (2 * j + 1) / 2 == j && (2 * j + 1) % 2 == 1;
  }

  /** Writing the real and imaginary part of slot j extends the filled
      prefix by one slot. */
  lemma {:induction false} FilledStep(lib: Library, p: Params, st: Stream, a: Axis, s: seq<real>, j: nat)
    requires MagnitudeLaws(lib) && ValidParams(p) && 2 * j + 1 < |s|
    requires Filled(lib, p, st, a, s, 2 * j)
    ensures var mode := SlotMode(lib, p, st, j);
      Filled(lib, p, st, a, s[2 * j := Component(mode.re, a)][2 * j + 1 := Component(mode.im, a)], 2 * j + 2)
  {
    var mode := SlotMode(lib, p, st, j);
    SlotEntries(lib, p, st, a, j);
    FilledExtend(lib, p, st, a, s, 2 * j, Component(mode.re, a));
    FilledExtend(lib, p, st, a, s[2 * j := Component(mode.re, a)], 2 * j + 1, Component(mode.im, a));
  }

  /** A completely filled buffer is the spectrum buffer. */
  lemma {:induction false} FilledAll(lib: Library, p: Params, st: Stream, a: Axis, s: seq<real>)
    requires MagnitudeLaws(lib) && ValidParams(p) && |s| == BufferLength(p.n)
    requires Filled(lib, p, st, a, s, |s|)
    ensures s == SpectrumBuffer(lib, p, st, a)
  {
  }

  /** The state of the filling loops before slot j: the three buffers are
      filled up to slot j and the generator has made the draws of the
      in-band slots before j. */
  ghost predicate Progress(lib: Library, p: Params, st: Stream, sx: seq<real>, sy: seq<real>, sz: seq<real>,
                           seed: int, calls: seq<DrawKind>, j: nat)
    requires MagnitudeLaws(lib) && ValidParams(p)
  {
    Filled(lib, p, st, X, sx, 2 * j) && Filled(lib, p, st, Y, sy, 2 * j) && Filled(lib, p, st, Z, sz, 2 * j) &&
    seed == st.seed && calls == st.before + Triples(CountInBand(lib, p, j))
  }

  /** Slot j of the three buffers when the loops reach it: the zero mode
      out of band and the sampled coefficient in band, each written as a
      real and an imaginary part (lines 57-62 and 90-95). */
  method StoreSlot(lib: Library, p: Params, ghost st: Stream, bkx: array<real>, bky: array<real>, bkz: array<real>,
                   j: nat, m: Mode)
    requires MagnitudeLaws(lib) && ValidParams(p)
    requires bkx != bky && bky != bkz && bkx != bkz
    requires 2 * j + 1 < bkx.Length && 2 * j + 1 < bky.Length && 2 * j + 1 < bkz.Length
    requires Filled(lib, p, st, X, bkx[..], 2 * j) && Filled(lib, p, st, Y, bky[..], 2 * j) && Filled(lib, p, st, Z, bkz[..], 2 * j)
    requires m == SlotMode(lib, p, st, j)
    modifies bkx, bky, bkz
    ensures Filled(lib, p, st, X, bkx[..], 2 * j + 2) && Filled(lib, p, st, Y, bky[..], 2 * j + 2) && Filled(lib, p, st, Z, bkz[..], 2 * j + 2)
  {
    FilledStep(lib, p, st, X, bkx[..], j);
    FilledStep(lib, p, st, Y, bky[..], j);
    FilledStep(lib, p, st, Z, bkz[..], j);
    bkx[2 * j] := m.re.x;
    bkx[2 * j + 1] := m.im.x;
    bky[2 * j] := m.re.y;
    bky[2 * j + 1] := m.im.y;
    bkz[2 * j] := m.re.z;
    bkz[2 * j + 1] := m.im.z;
  }

  /** What the filling loops rely on: the wavenumber table, the band
      limits, and three distinct buffers of the padded size. */
  ghost predicate Setup(lib: Library, p: Params, K: seq<real>, kMin: real, kMax: real,
                        bkx: array<real>, bky: array<real>, bkz: array<real>)
  {
    MagnitudeLaws(lib) && ValidParams(p) &&
    K == WaveTable(p.n) &&
    kMin == KMin(p) && kMax == KMax(p) &&
    bkx != bky && bky != bkz && bkx != bkz &&
    bkx.Length == BufferLength(p.n) && bky.Length == BufferLength(p.n) && bkz.Length == BufferLength(p.n)
  }

  /** When the loops have passed the last slot, the buffers are the
      spectrum buffers and the generator has made the draws of all in-band
      slots. */
  lemma {:induction false} ProgressComplete(lib: Library, p: Params, st: Stream, sx: seq<real>, sy: seq<real>, sz: seq<real>,
                         seed: int, calls: seq<DrawKind>)
    requires MagnitudeLaws(lib) && ValidParams(p) && Buffers(p.n, sx, sy, sz)
    requires Progress(lib, p, st, sx, sy, sz, seed, calls, SlotCount(p.n))
    ensures sx == SpectrumBuffer(lib, p, st, X) && sy == SpectrumBuffer(lib, p, st, Y) && sz == SpectrumBuffer(lib, p, st, Z)
    ensures seed == st.seed && calls == st.before + Triples(CountInBand(lib, p, SlotCount(p.n)))
  {
    FilledAll(lib, p, st, X, sx);
    FilledAll(lib, p, st, Y, sy);
    FilledAll(lib, p, st, Z, sz);
  }

  /** The body of the innermost loop (lines 50-95) for wavevector
      (ix, iy, iz): the slot's mode is stored in the three buffers, and
      the loops advance by one slot. */
  method VisitSlot(lib: Library, p: Params, ghost st: Stream, random: Random, K: seq<real>, kMin: real, kMax: real,
                   bkx: array<real>, bky: array<real>, bkz: array<real>, ix: nat, iy: nat, iz: nat, ghost j: nat)
    requires Setup(lib, p, K, kMin, kMax, bkx, bky, bkz)
    requires ix < p.n && iy < p.n && iz < HalfSize(p.n) && j == SlotIndex(p.n, ix, iy, iz) && st.source == random.source
    requires Progress(lib, p, st, bkx[..], bky[..], bkz[..], random.seed, random.calls, j)
    modifies random, bkx, bky, bkz
    ensures Progress(lib, p, st, bkx[..], bky[..], bkz[..], random.seed, random.calls, j + 1)
  {
    var n2 := HalfSize(p.n);
    var i := ix * p.n * n2 + iy * n2 + iz;
    SlotIndexValue(p.n, ix, iy, iz, i);
    ghost var sx, sy, sz := bkx[..], bky[..], bkz[..];
    var m := SlotCoefficient(lib, p, st, random, K, kMin, kMax, ix, iy, iz, i);
    assert bkx[..] == sx && bky[..] == sy && bkz[..] == sz;
    ghost var seed, calls := random.seed, random.calls;
    StoreSlot(lib, p, st, bkx, bky, bkz, i, m);
    assert random.seed == seed && random.calls == calls && 2 * (j + 1) == 2 * j + 2;
  }

  /** Lines 50-95 up to the stores for wavevector (ix, iy, iz) of slot i:
      the zero mode out of band (lines 55-63), otherwise the coefficient
      of the next three draws. */
  method SlotCoefficient(lib: Library, p: Params, ghost st: Stream, random: Random, K: seq<real>, kMin: real, kMax: real,
                         ix: nat, iy: nat, iz: nat, i: nat) returns (m: Mode)
    requires MagnitudeLaws(lib) && ValidParams(p) && K == WaveTable(p.n) && kMin == KMin(p) && kMax == KMax(p)
    requires ix < p.n && iy < p.n && iz < HalfSize(p.n) && i == SlotIndex(p.n, ix, iy, iz) && st.source == random.source
    requires random.seed == st.seed && random.calls == st.before + Triples(CountInBand(lib, p, i))
    modifies random
    ensures m == SlotMode(lib, p, st, i)
    ensures random.seed == st.seed && random.calls == st.before + Triples(CountInBand(lib, p, i + 1))
  {
    var ek := Vector3(K[ix], K[iy], K[iz]);
    assert ek == Vector3(WaveNumber(p.n, ix), WaveNumber(p.n, iy), WaveNumber(p.n, iz));
    var k := lib.Mag(ek);
    if k < kMin || k > kMax {
      SlotStepOutOfBand(lib, p, st, ix, iy, iz);
      m := Mode(Zero, Zero);
    } else {
      m := SampleSlot(lib, p, st, random, ix, iy, iz, i, ek);
    }
  }

  /** Lines 66-95 for the in-band wavevector ek of slot i: the three draws
      that follow those of the earlier in-band slots give the slot's
      coefficient. */
  method SampleSlot(lib: Library, p: Params, ghost st: Stream, random: Random,
                    ix: nat, iy: nat, iz: nat, i: nat, ek: Vector3) returns (m: Mode)
    requires MagnitudeLaws(lib) && ValidParams(p) && ix < p.n && iy < p.n && iz < HalfSize(p.n)
    requires i == SlotIndex(p.n, ix, iy, iz) && st.source == random.source
    requires ek == Vector3(WaveNumber(p.n, ix), WaveNumber(p.n, iy), WaveNumber(p.n, iz)) && InBand(lib, p, ek)
    requires random.seed == st.seed && random.calls == st.before + Triples(CountInBand(lib, p, i))
    modifies random
    ensures m == SlotMode(lib, p, st, i)
    ensures random.seed == st.seed && random.calls == st.before + Triples(CountInBand(lib, p, i + 1))
  {
    SlotStepInBand(lib, p, st, ix, iy, iz, ek);
    m := SampleMode(lib, p, random, ek);
    HistoryStep(st.before, CountInBand(lib, p, i), CountInBand(lib, p, i + 1));
  }

  /** The innermost loop of lines 48-97 for one row (ix, iy): the slots
      of the row are visited in order of iz. */
  method FillRow(lib: Library, p: Params, ghost st: Stream, random: Random, K: seq<real>, kMin: real, kMax: real,
                 bkx: array<real>, bky: array<real>, bkz: array<real>, ix: nat, iy: nat)
    requires Setup(lib, p, K, kMin, kMax, bkx, bky, bkz)
    requires ix < p.n && iy < p.n && st.source == random.source
    requires Progress(lib, p, st, bkx[..], bky[..], bkz[..], random.seed, random.calls, SlotIndex(p.n, ix, iy, 0))
    modifies random, bkx, bky, bkz
    ensures Progress(lib, p, st, bkx[..], bky[..], bkz[..], random.seed, random.calls, SlotIndex(p.n, ix, iy + 1, 0))
  {
    var n2 := HalfSize(p.n);
    ghost var j := SlotIndex(p.n, ix, iy, 0);
    var iz := 0;
    while iz < n2
      invariant 0 <= iz <= n2 && j == SlotIndex(p.n, ix, iy, iz)
      invariant Progress(lib, p, st, bkx[..], bky[..], bkz[..], random.seed, random.calls, j)
    {
      VisitSlot(lib, p, st, random, K, kMin, kMax, bkx, bky, bkz, ix, iy, iz, j);
      j := j + 1;
      iz := iz + 1;
    }
    SlotIndexCarry(p.n, ix, iy);
    assert j == SlotIndex(p.n, ix, iy + 1, 0);
  }

  /** The slot at which plane ix of the loops begins: n * n2 slots per
      plane. */
  function PlaneStart(n: nat, ix: nat): nat
  {
    if ix == 0 then 0 else PlaneStart(n, ix - 1) + n * HalfSize(n)
  }

  /** Plane ix begins at slot `SlotIndex(n, ix, 0, 0)`. */
  lemma {:induction false} PlaneStartIndex(n: nat, ix: nat)
    ensures PlaneStart(n, ix) == SlotIndex(n, ix, 0, 0)
  {
    if ix > 0 {
      PlaneStartIndex(n, ix - 1);
      SlotIndexCarry(n, ix - 1, 0);
      assert SlotIndex(n, ix - 1, n, 0) == SlotIndex(n, ix - 1, 0, 0) + n * HalfSize(n);
    }
  }

  /** The middle loop of lines 47-97 for one plane ix: its rows in order
      of iy. */
  method FillPlane(lib: Library, p: Params, ghost st: Stream, random: Random, K: seq<real>, kMin: real, kMax: real,
                   bkx: array<real>, bky: array<real>, bkz: array<real>, ix: nat)
    requires Setup(lib, p, K, kMin, kMax, bkx, bky, bkz)
    requires ix < p.n && st.source == random.source
    requires Progress(lib, p, st, bkx[..], bky[..], bkz[..], random.seed, random.calls, PlaneStart(p.n, ix))
    modifies random, bkx, bky, bkz
    ensures Progress(lib, p, st, bkx[..], bky[..], bkz[..], random.seed, random.calls, PlaneStart(p.n, ix + 1))
  {
    PlaneStartIndex(p.n, ix);
    PlaneStartIndex(p.n, ix + 1);
    var iy := 0;
    while iy < p.n
      invariant 0 <= iy <= p.n
      invariant Progress(lib, p, st, bkx[..], bky[..], bkz[..], random.seed, random.calls, SlotIndex(p.n, ix, iy, 0))
    {
      FillRow(lib, p, st, random, K, kMin, kMax, bkx, bky, bkz, ix, iy);
      iy := iy + 1;
    }
    SlotIndexCarry(p.n, ix, iy);
    assert SlotIndex(p.n, ix, iy, 0) == PlaneStart(p.n, ix + 1);
  }

  /** The nested loops of lines 46-98: every slot of the three buffers is
      written, in row-major order over ix, iy, iz, with the mode the
      spectrum prescribes, and the generator makes exactly the draws of the
      in-band wavevectors. */
  method FillSpectrum(lib: Library, p: Params, random: Random, K: seq<real>, kMin: real, kMax: real,
                      bkx: array<real>, bky: array<real>, bkz: array<real>)
    requires Setup(lib, p, K, kMin, kMax, bkx, bky, bkz)
    modifies random, bkx, bky, bkz
    ensures bkx[..] == SpectrumBuffer(lib, p, old(random.State()), X)
    ensures bky[..] == SpectrumBuffer(lib, p, old(random.State()), Y)
    ensures bkz[..] == SpectrumBuffer(lib, p, old(random.State()), Z)
    ensures random.seed == old(random.seed)
    ensures random.calls == old(random.calls) + Triples(CountInBand(lib, p, SlotCount(p.n)))
  {
    ghost var st := random.State();
    assert st.before + Triples(CountInBand(lib, p, 0)) == st.before;
    var ix := 0;
    while ix < p.n
      invariant 0 <= ix <= p.n
      invariant Progress(lib, p, st, bkx[..], bky[..], bkz[..], random.seed, random.calls, PlaneStart(p.n, ix))
    {
      FillPlane(lib, p, st, random, K, kMin, kMax, bkx, bky, bkz, ix);
      ix := ix + 1;
    }
    PlaneStartIndex(p.n, ix);
    SlotIndexCarry(p.n, ix, 0);
    assert PlaneStart(p.n, ix) == SlotCount(p.n);
    assert st == old(random.State());
    ProgressComplete(lib, p, st, bkx[..], bky[..], bkz[..], random.seed, random.calls);
  }

  /** Lines 100-115: plan and execute the in-place complex-to-real
      transform of one buffer. */
  method ExecuteC2R(n: nat, b: array<real>, c2r: C2R)
    modifies b
    ensures b[..] == c2r.Execute(n, old(b[..]))
  {
    var out := c2r.Execute(n, b[..]);
    forall i | 0 <= i < b.Length {
      b[i] := out[i];
    }
    assert b[..] == out;
  }

  /** Lines 118-124: `sumB2` is the sum over the n^3 cells, read through
      the padded index, of the squared components. */
  method SumSquares(lib: Library, n: nat, Bx: array<real>, By: array<real>, Bz: array<real>) returns (sumB2: real)
    requires n >= 1 && Buffers(n, Bx[..], By[..], Bz[..])
    ensures sumB2 == SumB2(lib, Cells(n, Bx[..], By[..], Bz[..]), CellCount(n))
  {
    ghost var sx, sy, sz := Bx[..], By[..], Bz[..];
    ghost var cs := Cells(n, sx, sy, sz);
    sumB2 := 0.0;
    var ix := 0;
    while ix < n
      invariant 0 <= ix <= n && CellIndex(n, ix, 0, 0) <= |cs|
      invariant sumB2 == SumB2(lib, cs, CellIndex(n, ix, 0, 0))
    {
      sumB2 := SumPlane(lib, n, Bx, By, Bz, sx, sy, sz, cs, ix, sumB2);
      ix := ix + 1;
    }
    CellIndexCarry(n, ix, 0);
  }

  /** The middle loop of lines 118-124 for plane ix: its rows in order of
      iy, adding to the partial sum `sumB2`; sx, sy and sz are the contents
      of the three buffers and cs their cells. */
  method SumPlane(lib: Library, n: nat, Bx: array<real>, By: array<real>, Bz: array<real>,
                  ghost sx: seq<real>, ghost sy: seq<real>, ghost sz: seq<real>, ghost cs: seq<Vector3>,
                  ix: nat, sumB2: real) returns (sum: real)
    requires sx == Bx[..] && sy == By[..] && sz == Bz[..] && n >= 1 && Buffers(n, sx, sy, sz)
    requires CellsOf(n, sx, sy, sz, cs) && ix < n
    requires CellIndex(n, ix, 0, 0) <= |cs| && sumB2 == SumB2(lib, cs, CellIndex(n, ix, 0, 0))
    ensures CellIndex(n, ix + 1, 0, 0) <= |cs| && sum == SumB2(lib, cs, CellIndex(n, ix + 1, 0, 0))
  {
    sum := sumB2;
    var iy := 0;
    while iy < n
      invariant 0 <= iy <= n && CellIndex(n, ix, iy, 0) <= |cs|
      invariant sum == SumB2(lib, cs, CellIndex(n, ix, iy, 0))
    {
      sum := SumRow(lib, n, Bx, By, Bz, sx, sy, sz, cs, ix, iy, sum);
      iy := iy + 1;
    }
    CellIndexCarry(n, ix, iy);
  }

  /** The innermost loop of lines 118-124 for row (ix, iy): each cell adds
      the squares of its three components at its padded index i. */
  method SumRow(lib: Library, n: nat, Bx: array<real>, By: array<real>, Bz: array<real>,
                ghost sx: seq<real>, ghost sy: seq<real>, ghost sz: seq<real>, ghost cs: seq<Vector3>,
                ix: nat, iy: nat, sumB2: real) returns (sum: real)
    requires sx == Bx[..] && sy == By[..] && sz == Bz[..] && n >= 1 && Buffers(n, sx, sy, sz)
    requires CellsOf(n, sx, sy, sz, cs) && ix < n && iy < n
    requires CellIndex(n, ix, iy, 0) <= |cs| && sumB2 == SumB2(lib, cs, CellIndex(n, ix, iy, 0))
    ensures CellIndex(n, ix, iy + 1, 0) <= |cs| && sum == SumB2(lib, cs, CellIndex(n, ix, iy + 1, 0))
  {
    sum := sumB2;
    ghost var c: nat := CellIndex(n, ix, iy, 0);
    var iz := 0;
    while iz < n
      invariant 0 <= iz <= n && c == CellIndex(n, ix, iy, iz)
      invariant c <= |cs| && sum == SumB2(lib, cs, c)
    {
      var i := ix * n * 2 * HalfSize(n) + iy * 2 * HalfSize(n) + iz;
      SumB2Cell(lib, n, sx, sy, sz, cs, ix, iy, iz, c, i);
      sum := sum + (lib.Pow(Bx[i], 2.0) + lib.Pow(By[i], 2.0) + lib.Pow(Bz[i], 2.0));
      c := c + 1;
      iz := iz + 1;
    }
    CellIndexCarry(n, ix, iy);
  }

  /** Cell (ix, iy, iz) of the stored grid: the padded sample times the
      weight. */
  function StoredValue(n: nat, sx: seq<real>, sy: seq<real>, sz: seq<real>, weight: real, ix: nat, iy: nat, iz: nat): Vector3
    requires Buffers(n, sx, sy, sz) && ix < n && iy < n && iz < n
  {
    Mul(PaddedCell(n, sx, sy, sz, ix, iy, iz), weight)
  }

  /** Cell (ix, iy, iz) of the stored grid is `weight` times the samples at
      its padded index i. */
  lemma {:induction false} StoredValueAt(n: nat, sx: seq<real>, sy: seq<real>, sz: seq<real>, weight: real,
                                         ix: nat, iy: nat, iz: nat, i: int)
    requires Buffers(n, sx, sy, sz) && ix < n && iy < n && iz < n && i == PaddedIndex(n, ix, iy, iz)
    ensures 0 <= i && i < |sx| && i < |sy| && i < |sz|
    ensures StoredValue(n, sx, sy, sz, weight, ix, iy, iz) == Mul(Vector3(sx[i], sy[i], sz[i]), weight)
  {
    PaddedIndexInRange(n, ix, iy, iz);
  }

  /** Cell (a, b, c) comes before cell (ix, iy, iz) in row-major order. */
  predicate Before(a: nat, b: nat, c: nat, ix: nat, iy: nat, iz: nat)
  {
    a < ix || (a == ix && b < iy) || (a == ix && b == iy && c < iz)
  }

  /** The storing loops have written every cell before (ix, iy, iz). */
  ghost predicate StoredBefore(grid: array3<Vector3>, n: nat, sx: seq<real>, sy: seq<real>, sz: seq<real>, weight: real,
                               ix: nat, iy: nat, iz: nat)
    requires Buffers(n, sx, sy, sz)
    reads grid
  {
    grid.Length0 == n && grid.Length1 == n && grid.Length2 == n &&
    forall a: nat, b: nat, c: nat :: a < n && b < n && c < n && Before(a, b, c, ix, iy, iz) ==>
      grid[a, b, c] == StoredValue(n, sx, sy, sz, weight, a, b, c)
  }

  /** Lines 127-134: every cell of the grid receives its padded sample
      times `weight`. */
  method StoreNormalized(grid: array3<Vector3>, n: nat, Bx: array<real>, By: array<real>, Bz: array<real>, weight: real)
    requires grid.Length0 == n && grid.Length1 == n && grid.Length2 == n
    requires Buffers(n, Bx[..], By[..], Bz[..])
    modifies grid
    ensures forall a: nat, b: nat, c: nat :: a < n && b < n && c < n ==>
      grid[a, b, c] == StoredValue(n, Bx[..], By[..], Bz[..], weight, a, b, c)
  {
    ghost var sx, sy, sz := Bx[..], By[..], Bz[..];
    var ix := 0;
    while ix < n
      invariant 0 <= ix <= n
      invariant StoredBefore(grid, n, sx, sy, sz, weight, ix, 0, 0)
    {
      StorePlane(grid, n, Bx, By, Bz, sx, sy, sz, weight, ix);
      ix := ix + 1;
    }
  }

  /** The middle loop of lines 127-134 for plane ix; sx, sy and sz are the
      contents of the three buffers. */
  method StorePlane(grid: array3<Vector3>, n: nat, Bx: array<real>, By: array<real>, Bz: array<real>,
                    ghost sx: seq<real>, ghost sy: seq<real>, ghost sz: seq<real>, weight: real, ix: nat)
    requires sx == Bx[..] && sy == By[..] && sz == Bz[..] && Buffers(n, sx, sy, sz) && ix < n
    requires StoredBefore(grid, n, sx, sy, sz, weight, ix, 0, 0)
    modifies grid
    ensures StoredBefore(grid, n, sx, sy, sz, weight, ix + 1, 0, 0)
  {
    var iy := 0;
    while iy < n
      invariant 0 <= iy <= n
      invariant StoredBefore(grid, n, sx, sy, sz, weight, ix, iy, 0)
    {
      StoreRow(grid, n, Bx, By, Bz, sx, sy, sz, weight, ix, iy);
      iy := iy + 1;
    }
  }

  /** The innermost loop of lines 127-134 for row (ix, iy): cell
      (ix, iy, iz) receives the three transformed values at its padded
      index i, scaled by the weight. */
  method StoreRow(grid: array3<Vector3>, n: nat, Bx: array<real>, By: array<real>, Bz: array<real>,
                  ghost sx: seq<real>, ghost sy: seq<real>, ghost sz: seq<real>, weight: real, ix: nat, iy: nat)
    requires sx == Bx[..] && sy == By[..] && sz == Bz[..] && Buffers(n, sx, sy, sz) && ix < n && iy < n
    requires StoredBefore(grid, n, sx, sy, sz, weight, ix, iy, 0)
    modifies grid
    ensures StoredBefore(grid, n, sx, sy, sz, weight, ix, iy + 1, 0)
  {
    var iz := 0;
    while iz < n
      invariant 0 <= iz <= n
      invariant StoredBefore(grid, n, sx, sy, sz, weight, ix, iy, iz)
    {
      var i := ix * n * 2 * HalfSize(n) + iy * 2 * HalfSize(n) + iz;
      StoredValueAt(n, sx, sy, sz, weight, ix, iy, iz, i);
      grid[ix, iy, iz] := Mul(Vector3(Bx[i], By[i], Bz[i]), weight);
      iz := iz + 1;
    }
  }

  // ---------------------------------------------------------------------
  // `initialize` and the grid object
  // ---------------------------------------------------------------------

  /** Lines 23-115: the three buffers of `n * n * n2` complex slots
      (lines 27-30), the wavenumber table (lines 33-35), the band limits
      (lines 40-41), the filling loops (lines 46-98) and the three inverse
      transforms (lines 100-115). */
  method TransformedBuffers(lib: Library, p: Params, random: Random, c2r: C2R) returns (Bx: array<real>, By: array<real>, Bz: array<real>)
    requires MagnitudeLaws(lib) && ValidParams(p)
    modifies random
    ensures fresh(Bx) && fresh(By) && fresh(Bz)
    ensures Bx[..] == Transformed(lib, p, old(random.State()), c2r, X)
    ensures By[..] == Transformed(lib, p, old(random.State()), c2r, Y)
    ensures Bz[..] == Transformed(lib, p, old(random.State()), c2r, Z)
    ensures random.seed == old(random.seed)
    ensures random.calls == old(random.calls) + Triples(CountInBand(lib, p, SlotCount(p.n)))
  {
    var n := p.n;
    Bx := new real[BufferLength(n)];
    By := new real[BufferLength(n)];
    Bz := new real[BufferLength(n)];
    var K := WaveNumbers(n);
    var kMin := p.spacing / p.lMax;
    var kMax := p.spacing / p.lMin;
    FillSpectrum(lib, p, random, K, kMin, kMax, Bx, By, Bz);
    ExecuteC2R(n, Bx, c2r);
    ExecuteC2R(n, By, c2r);
    ExecuteC2R(n, Bz, c2r);
  }

  /** Lines 23-134: the whole synthesis. Every cell of the grid receives
      the transformed sample of its padded index times
      the weight of line 125, Brms over the root mean square, and the
      generator makes the draws of the in-band wavevectors. */
  method Synthesize(lib: Library, p: Params, random: Random, c2r: C2R, grid: array3<Vector3>)
    requires Synthesizable(lib, p, random.State(), c2r)
    requires grid.Length0 == p.n && grid.Length1 == p.n && grid.Length2 == p.n
    modifies random, grid
    ensures forall a: nat, b: nat, c: nat :: a < p.n && b < p.n && c < p.n ==>
      grid[a, b, c] == GridCell(lib, p, old(random.State()), c2r, a, b, c)
    ensures random.seed == old(random.seed)
    ensures random.calls == old(random.calls) + Triples(CountInBand(lib, p, SlotCount(p.n)))
  {
    ghost var st := random.State();
    var Bx, By, Bz := TransformedBuffers(lib, p, random, c2r);
    StoreGrid(lib, p, st, c2r, Bx, By, Bz, grid);
  }

  /** Lines 117-134 on the transformed buffers of a synthesis from `st`:
      the sum of squares, the weight and the scaled cells. */
  method StoreGrid(lib: Library, p: Params, ghost st: Stream, c2r: C2R, Bx: array<real>, By: array<real>, Bz: array<real>,
                   grid: array3<Vector3>)
    requires Synthesizable(lib, p, st, c2r)
    requires Bx[..] == Transformed(lib, p, st, c2r, X) && By[..] == Transformed(lib, p, st, c2r, Y)
    requires Bz[..] == Transformed(lib, p, st, c2r, Z)
    requires grid.Length0 == p.n && grid.Length1 == p.n && grid.Length2 == p.n
    modifies grid
    ensures forall a: nat, b: nat, c: nat :: a < p.n && b < p.n && c < p.n ==>
      grid[a, b, c] == GridCell(lib, p, st, c2r, a, b, c)
  {
    var n := p.n;
    ghost var cs := ExpectedCells(lib, p, st, c2r);
    var sumB2 := SumSquares(lib, n, Bx, By, Bz);
    assert sumB2 == SumB2(lib, cs, |cs|);
    var weight := p.Brms / lib.Sqrt(sumB2 / ((n * n * n) as real));
    assert weight == Weight(lib, p.Brms, cs);
    StoreNormalized(grid, n, Bx, By, Bz, weight);
  }

  /** The grid object: the sampling of the base grid (`origin`, `samples`,
      `spacing`), the spectrum parameters, the generator and the
      `samples^3` field vectors. The library functions and the transform
      are fixed when the object is made. */
  class TurbulentMagneticFieldGrid {
    const origin: Vector3
    const samples: nat
    const spacing: real
    var lMin: real
    var lMax: real
    var Brms: real
    var powerSpectralIndex: real
    const lib: Library
    const c2r: C2R
    const random: Random
    const grid: array3<Vector3>

    /** The parameters `initialize` reads. */
    function Parameters(): (p: Params)
      reads this
      ensures p.n == samples && p.spacing == spacing && p.lMin == lMin && p.lMax == lMax
      ensures p.Brms == Brms && p.alpha == powerSpectralIndex
    {
      Params(samples, spacing, lMin, lMax, Brms, powerSpectralIndex)
    }

    /** The grid has `samples` cells along each axis, and the parameters
      and the library are those the synthesis is defined for. */
    ghost predicate Valid()
      reads this
    {
      MagnitudeLaws(lib) && ValidParams(Parameters()) &&
      grid.Length0 == samples && grid.Length1 == samples && grid.Length2 == samples
    }

    /** The first m cells of the grid, in row-major order. */
    ghost function GridPrefix(m: nat): (g: seq<Vector3>)
      requires grid.Length0 == samples && grid.Length1 == samples && grid.Length2 == samples
      requires m <= CellCount(samples)
      reads this, grid
      ensures |g| == m
    {
      if m == 0 then []
      else
        CellDecomposeInRange(samples, m - 1);
        var (a, b, c) := CellDecompose(samples, m - 1);
        GridPrefix(m - 1) + [grid[a, b, c]]
    }

    /** All `samples^3` cells of the grid, in row-major order. */
    ghost function Contents(): (g: seq<Vector3>)
      requires grid.Length0 == samples && grid.Length1 == samples && grid.Length2 == samples
      reads this, grid
      ensures |g| == CellCount(samples)
    {
      GridPrefix(CellCount(samples))
    }

    /** A grid whose cell (a, b, c) is e[(a * n + b) * n + c] holds e in
        row-major order. */
    lemma {:induction false} PrefixInOrder(e: seq<Vector3>, m: nat)
      requires grid.Length0 == samples && grid.Length1 == samples && grid.Length2 == samples
      requires m <= CellCount(samples) && |e| == CellCount(samples)
      requires forall a: nat, b: nat, c: nat :: a < samples && b < samples && c < samples ==>
        CellIndex(samples, a, b, c) < |e| && grid[a, b, c] == e[CellIndex(samples, a, b, c)]
      ensures GridPrefix(m) == e[..m]
    {
      if m > 0 {
        PrefixInOrder(e, m - 1);
        CellDecomposeInRange(samples, m - 1);
        var (a, b, c) := CellDecompose(samples, m - 1);
        assert grid[a, b, c] == e[m - 1];
        assert e[..m] == e[..m - 1] + [e[m - 1]];
      }
    }

    /** The constructor: store the parameters (lines 9-13), then
        `initialize()` (line 14). The generator starts at `seed` with no
        draws made. */
    constructor(origin: Vector3, samples: nat, spacing: real, lMin: real, lMax: real, Brms: real,
                powerSpectralIndex: real, lib: Library, c2r: C2R, source: Source, seed: int)
      requires Synthesizable(lib, Params(samples, spacing, lMin, lMax, Brms, powerSpectralIndex), Stream(source, seed, []), c2r)
      ensures this.origin == origin && this.samples == samples && this.spacing == spacing
      ensures this.lMin == lMin && this.lMax == lMax && this.Brms == Brms && this.powerSpectralIndex == powerSpectralIndex
      ensures this.lib == lib && this.c2r == c2r && fresh(random) && fresh(grid) && Valid()
      ensures random.source == source && random.seed == seed
      ensures random.calls == Triples(CountInBand(lib, Parameters(), SlotCount(samples)))
      ensures Contents() == ExpectedGrid(lib, Parameters(), Stream(source, seed, []), c2r)
    {
      this.origin := origin;
      this.samples := samples;
      this.spacing := spacing;
      this.lMin := lMin;
      this.lMax := lMax;
      this.Brms := Brms;
      this.powerSpectralIndex := powerSpectralIndex;
      this.lib := lib;
      this.c2r := c2r;
      random := new Random(source, seed);
      grid := new Vector3[samples, samples, samples];
      new;
      Initialize();
    }

    /** `setSeed(seed)` (lines 17-20): reseed the generator and synthesise
        the grid again. */
    method SetSeed(seed: int)
      requires Valid() && Synthesizable(lib, Parameters(), Stream(random.source, seed, []), c2r)
      modifies random, grid
      ensures Valid()
      ensures random.seed == seed && random.calls == Triples(CountInBand(lib, Parameters(), SlotCount(samples)))
      ensures Contents() == ExpectedGrid(lib, Parameters(), Stream(random.source, seed, []), c2r)
    {
      random.Seed(seed);
      Initialize();
    }

    /** `initialize()` (lines 22-139): the grid becomes the expected grid
        of the generator's current state, and the generator makes the
        draws of the in-band wavevectors. */
    method Initialize()
      requires Valid() && Synthesizable(lib, Parameters(), random.State(), c2r)
      modifies random, grid
      ensures Valid()
      ensures random.seed == old(random.seed)
      ensures random.calls == old(random.calls) + Triples(CountInBand(lib, Parameters(), SlotCount(samples)))
      ensures Contents() == ExpectedGrid(lib, Parameters(), old(random.State()), c2r)
    {
      ghost var st := random.State();
      Synthesize(lib, Parameters(), random, c2r, grid);
      ghost var e := ExpectedGrid(lib, Parameters(), st, c2r);
      forall a: nat, b: nat, c: nat | a < samples && b < samples && c < samples
        ensures CellIndex(samples, a, b, c) < |e| && grid[a, b, c] == e[CellIndex(samples, a, b, c)]
      {
        GridCellInOrder(lib, Parameters(), st, c2r, a, b, c);
      }
      PrefixInOrder(e, CellCount(samples));
      assert e[..CellCount(samples)] == e;
    }

    /** `getRMSFieldStrength()` (lines 141-143). */
    function GetRMSFieldStrength(): (b: real)
      reads this
      ensures b == Brms
    {
      Brms
    }

    /** `getPowerSpectralIndex()` (lines 145-147). */
    function GetPowerSpectralIndex(): (a: real)
      reads this
      ensures a == powerSpectralIndex
    {
      powerSpectralIndex
    }

    /** A synthesised grid has mean square `getRMSFieldStrength()^2`, given
        an exact square root and `pow(x, 2) == x * x`. */
    lemma {:induction false} RMSOfGrid(st: Stream)
      requires Valid() && RootLaws(lib) && Synthesizable(lib, Parameters(), st, c2r)
      requires Contents() == ExpectedGrid(lib, Parameters(), st, c2r)
      ensures Squares(Contents(), CellCount(samples)) / (CellCount(samples) as real) == GetRMSFieldStrength() * GetRMSFieldStrength()
    {
      GridMeanSquare(lib, Parameters(), st, c2r);
    }
  }
}
