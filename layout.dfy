/** Index arithmetic of the synthesis: the table of discrete wave numbers,
    the half-size of the z-direction in Fourier space, the flat index of a
    complex slot, the padded index of a real value after the in-place
    complex-to-real transform, and the row-major numbering of grid cells. */
module GridLayout {

  import opened Arithmetic

  // ---------------------------------------------------------------------
  // Wave numbers
  // ---------------------------------------------------------------------

  /** The wave number of index i: i over n taken in floating point, minus
      the integer quotient of i by half of n. */
  function WaveNumber(n: nat, i: nat): real
    requires n >= 2
  {
    (i as real) / (n as real) - ((i / (n / 2)) as real)
  }

  /** The first m wave numbers. An entry is tied to its wave number only
      where a proof names that wave number. */
  function WavePrefix(n: nat, m: nat): (t: seq<real>)
    requires n >= 2 && m <= n
    ensures |t| == m && forall i {:trigger WaveNumber(n, i)} :: 0 <= i < m ==> t[i] == WaveNumber(n, i)
  {
    if m == 0 then [] else WavePrefix(n, m - 1) + [WaveNumber(n, m - 1)]
  }

  /** The table `K` of the n wave numbers. */
  function WaveTable(n: nat): (t: seq<real>)
    requires n >= 2
    ensures |t| == n && forall i {:trigger WaveNumber(n, i)} :: 0 <= i < n ==> t[i] == WaveNumber(n, i)
  {
    WavePrefix(n, n)
  }

  /** i / n < 1/2 whenever 2 i < n. */
  lemma {:induction false} RatioBelowHalf(i: nat, n: nat)
    requires n > 0 && 2 * i < n
    ensures (i as real) / (n as real) < 0.5
  {
    var q := (i as real) / (n as real);
    assert q * (n as real) == i as real;
    if q >= 0.5 {
      MulNonNegative(q - 0.5, n as real, (i as real) - 0.5 * (n as real));
    }
  }

  /** i / n >= 1/2 whenever 2 i >= n, and i / n < 1 whenever i < n. */
  lemma {:induction false} RatioUpperHalf(i: nat, n: nat)
    requires n > 0 && n <= 2 * i && i < n
    ensures 0.5 <= (i as real) / (n as real) < 1.0
  {
    var q := (i as real) / (n as real);
    assert q * (n as real) == i as real;
    if q < 0.5 {
      MulPositive(0.5 - q, n as real, 0.5 * (n as real) - (i as real));
    }
    if q >= 1.0 {
      MulNonNegative(q - 1.0, n as real, (i as real) - (n as real));
    }
  }

  /** For even n the table holds the signed frequencies of a discrete
      Fourier transform: i/n for the lower half and i/n - 1 for the upper
      half. */
  lemma {:induction false} WaveNumberEven(n: nat, i: nat)
    requires n >= 2 && n % 2 == 0 && i < n
    ensures i < n / 2 ==> WaveNumber(n, i) == (i as real) / (n as real)
    ensures n / 2 <= i ==> WaveNumber(n, i) == (i as real) / (n as real) - 1.0
  {
    var h := n / 2;
    if i < h {
      DivModUnique(i, h, 0, i);
    } else {
      DivModUnique(i, h, 1, i - h);
    }
  }

  /** For even n, K[0] = 0 and every entry lies in [-1/2, 1/2). */
  lemma {:induction false} WaveNumberRange(n: nat, i: nat)
    requires n >= 2 && n % 2 == 0 && i < n
    ensures WaveNumber(n, 0) == 0.0
    ensures -0.5 <= WaveNumber(n, i) < 0.5
  {
    WaveNumberEven(n, i);
    if i < n / 2 {
      RatioBelowHalf(i, n);
    } else {
      RatioUpperHalf(i, n);
    }
  }

  /** For odd n the integer quotient i / (n / 2) reaches 2 at the last
      index, so the last entry is (n-1)/n - 2 and leaves [-1/2, 1/2). */
  lemma {:induction false} WaveNumberOddLast(n: nat)
    requires n >= 3 && n % 2 == 1
    ensures WaveNumber(n, n - 1) == ((n - 1) as real) / (n as real) - 2.0
    ensures WaveNumber(n, n - 1) < -1.0
  {
    var h := n / 2;
    DivModUnique(n - 1, h, 2, 0);
    RatioUpperHalf(n - 1, n);
  }

  /** The smallest odd example: n = 3 has n / 2 = 1, so K = [0, -2/3, -4/3]
      and the table holds no positive frequency. */
  lemma {:induction false} WaveNumbersOfThree()
    ensures WaveNumber(3, 0) == 0.0
    ensures WaveNumber(3, 1) == -2.0 / 3.0
    ensures WaveNumber(3, 2) == -4.0 / 3.0
  {
    WaveNumberOddLast(3);
  }

  // ---------------------------------------------------------------------
  // Complex slots of the half-size Fourier buffers
  // ---------------------------------------------------------------------

  /** One more than half of n, rounded down: the number of z-frequencies
      stored by a real
      transform. It never exceeds n, and n stays below 2 * n2, so the
      padded rows of length 2 * n2 hold the n real values of a row. */
  function HalfSize(n: nat): (n2: nat)
    ensures n >= 1 ==> n2 <= n
    ensures n < 2 * n2
  {
    n / 2 + 1
  }

  /** Number of complex slots of each buffer: n * n * n2. */
  function SlotCount(n: nat): nat
  {
    n * n * HalfSize(n)
  }

  /** The row-major position of slot (ix, iy, iz) in an n by n by n2 array. */
  function SlotIndex(n: nat, ix: nat, iy: nat, iz: nat): nat
  {
    ix * n * HalfSize(n) + iy * HalfSize(n) + iz
  }

  /** The index the loops compute, `ix * n * n2 + iy * n2 + iz`, is the
      slot index. */
  lemma {:induction false} SlotIndexValue(n: nat, ix: nat, iy: nat, iz: nat, i: int)
    requires ix < n && iy < n && iz < HalfSize(n) && i == ix * n * HalfSize(n) + iy * HalfSize(n) + iz
    ensures 0 <= i && i == SlotIndex(n, ix, iy, iz) && i < SlotCount(n)
  {
    SlotIndexInRange(n, ix, iy, iz);
  }

  /** The wavevector the loops `for ix < n, for iy < n, for iz < n2`
      visit at step j. */
  function Decompose(n: nat, j: nat): (nat, nat, nat)
  {
    Walk(n, HalfSize(n), j)
  }

  /** Every slot visited by the loops lies inside the buffer. */
  lemma {:induction false} SlotIndexInRange(n: nat, ix: nat, iy: nat, iz: nat)
    requires ix < n && iy < n && iz < HalfSize(n)
    ensures SlotIndex(n, ix, iy, iz) < SlotCount(n)
  {
    RankBelow(n, HalfSize(n), ix, iy, iz);
    SlotIndexRows(n, ix, iy, iz);
  }

  /** The slot index counts whole rows of n2 slots, then the column. */
  lemma {:induction false} SlotIndexRows(n: nat, ix: nat, iy: nat, iz: nat)
    ensures SlotIndex(n, ix, iy, iz) == Rank(n, HalfSize(n), ix, iy, iz)
  {
    AddMul(ix * n, iy, HalfSize(n));
  }

  /** Decomposing the flat index gives back the coordinates. */
  lemma {:induction false} SlotRoundTrip(n: nat, ix: nat, iy: nat, iz: nat)
    requires ix < n && iy < n && iz < HalfSize(n)
    ensures Decompose(n, SlotIndex(n, ix, iy, iz)) == (ix, iy, iz)
  {
    SlotIndexRows(n, ix, iy, iz);
    WalkRoundTrip(n, HalfSize(n), ix, iy, iz);
  }

  /** The slot after the last of a row is the first of the next row, and
      the slot after the last of all is the end of the buffer: the loops
      visit the slots in increasing order without gaps. */
  lemma {:induction false} SlotIndexCarry(n: nat, ix: nat, iy: nat)
    ensures SlotIndex(n, ix, iy, HalfSize(n)) == SlotIndex(n, ix, iy + 1, 0)
    ensures SlotIndex(n, ix, n, 0) == SlotIndex(n, ix + 1, 0, 0)
    ensures SlotIndex(n, n, 0, 0) == SlotCount(n)
  {
    var n2 := HalfSize(n);
    AddMul(iy, 1, n2);
    AddMul(ix, 1, n);
    AddMul(ix * n, n, n2);
  }

  /** Distinct wavevectors use distinct slots: no slot is written twice. */
  lemma {:induction false} SlotIndexInjective(n: nat, ix: nat, iy: nat, iz: nat, jx: nat, jy: nat, jz: nat)
    requires ix < n && iy < n && iz < HalfSize(n)
    requires jx < n && jy < n && jz < HalfSize(n)
    requires SlotIndex(n, ix, iy, iz) == SlotIndex(n, jx, jy, jz)
    ensures ix == jx && iy == jy && iz == jz
  {
    SlotIndexRows(n, ix, iy, iz);
    SlotIndexRows(n, jx, jy, jz);
    RankInjective(n, HalfSize(n), ix, iy, iz, jx, jy, jz);
  }

  /** Every slot of the buffer belongs to one wavevector of the loops: the
      loops write every slot, and step j writes slot j. */
  lemma {:induction false} DecomposeInRange(n: nat, j: nat)
    requires j < SlotCount(n)
    ensures Decompose(n, j).0 < n && Decompose(n, j).1 < n && Decompose(n, j).2 < HalfSize(n)
    ensures SlotIndex(n, Decompose(n, j).0, Decompose(n, j).1, Decompose(n, j).2) == j
  {
    var c := Decompose(n, j);
    WalkRank(n, HalfSize(n), j);
    SlotIndexRows(n, c.0, c.1, c.2);
  }

  // ---------------------------------------------------------------------
  // The visiting order of three nested loops
  // ---------------------------------------------------------------------

  /** One step of `for x < n, for y < n, for z < m`: advance z, carrying
      into y at m and into x at n. */
  function Step(n: nat, m: nat, c: (nat, nat, nat)): (nat, nat, nat)
  {
    if c.2 + 1 < m then (c.0, c.1, c.2 + 1)
    else if c.1 + 1 < n then (c.0, c.1 + 1, 0)
    else (c.0 + 1, 0, 0)
  }

  /** The position of the loops after j steps from (0, 0, 0). */
  function Walk(n: nat, m: nat, j: nat): (nat, nat, nat)
  {
    if j == 0 then (0, 0, 0) else Step(n, m, Walk(n, m, j - 1))
  }

  /** The number of steps the loops take before reaching (x, y, z). */
  function Rank(n: nat, m: nat, x: nat, y: nat, z: nat): nat
  {
    (x * n + y) * m + z
  }

  /** Every position of the loops ranks below n * n * m. */
  lemma {:induction false} RankBelow(n: nat, m: nat, x: nat, y: nat, z: nat)
    requires x < n && y < n && z < m
    ensures Rank(n, m, x, y, z) < n * n * m
  {
    MixedRadixBelow(x, y, n, n);
    MixedRadixBelow(x * n + y, z, m, n * n);
  }

  /** A step moves to the next rank; it leaves the range of x only after
      the last position. */
  lemma {:induction false} StepRank(n: nat, m: nat, c: (nat, nat, nat))
    requires c.0 < n && c.1 < n && c.2 < m
    ensures var d := Step(n, m, c);
      d.1 < n && d.2 < m && d.0 <= n &&
      Rank(n, m, d.0, d.1, d.2) == Rank(n, m, c.0, c.1, c.2) + 1 &&
      (d.0 == n ==> Rank(n, m, d.0, d.1, d.2) == n * n * m)
  {
    AddMul(c.0 * n + c.1, 1, m);
    AddMul(c.0, 1, n);
  }

  /** The first n * n * m steps stay in range, and step j is at rank j. */
  lemma {:induction false} WalkRank(n: nat, m: nat, j: nat)
    requires j < n * n * m
    ensures var c := Walk(n, m, j);
      c.0 < n && c.1 < n && c.2 < m && Rank(n, m, c.0, c.1, c.2) == j
  {
    if j == 0 {
      assert n > 0 && m > 0;
    } else {
      WalkRank(n, m, j - 1);
      StepRank(n, m, Walk(n, m, j - 1));
    }
  }

  /** Distinct positions have distinct ranks. */
  lemma {:induction false} RankInjective(n: nat, m: nat, x: nat, y: nat, z: nat, x': nat, y': nat, z': nat)
    requires x < n && y < n && z < m && x' < n && y' < n && z' < m
    requires Rank(n, m, x, y, z) == Rank(n, m, x', y', z')
    ensures x == x' && y == y' && z == z'
  {
    var j := Rank(n, m, x, y, z);
    DivModUnique(j, m, x * n + y, z);
    DivModUnique(j, m, x' * n + y', z');
    DivModUnique(j / m, n, x, y);
    DivModUnique(j / m, n, x', y');
  }

  /** The loops reach (x, y, z) after exactly `Rank` steps. */
  lemma {:induction false} WalkRoundTrip(n: nat, m: nat, x: nat, y: nat, z: nat)
    requires x < n && y < n && z < m
    ensures Walk(n, m, Rank(n, m, x, y, z)) == (x, y, z)
  {
    var j := Rank(n, m, x, y, z);
    RankBelow(n, m, x, y, z);
    WalkRank(n, m, j);
    var c := Walk(n, m, j);
    RankInjective(n, m, x, y, z, c.0, c.1, c.2);
  }

  // ---------------------------------------------------------------------
  // Padded real layout after the in-place transform
  // ---------------------------------------------------------------------

  /** Number of doubles in each buffer: two per complex slot. */
  function BufferLength(n: nat): nat
  {
    2 * SlotCount(n)
  }

  /** The row-major position of cell (ix, iy, iz) in the real output, whose
      rows are padded to 2 * n2 doubles. */
  function PaddedIndex(n: nat, ix: nat, iy: nat, iz: nat): nat
  {
    ix * n * 2 * HalfSize(n) + iy * 2 * HalfSize(n) + iz
  }

  /** Reading the transformed field stays inside the buffer. */
  lemma {:induction false} PaddedIndexInRange(n: nat, ix: nat, iy: nat, iz: nat)
    requires ix < n && iy < n && iz < n
    ensures PaddedIndex(n, ix, iy, iz) < BufferLength(n)
  {
    var w := 2 * HalfSize(n);
    MixedRadixBelow(ix, iy, n, n);
    MixedRadixBelow(ix * n + iy, iz, w, n * n);
    PaddedIndexRows(n, ix, iy, iz);
    BufferRows(n);
  }

  lemma {:induction false} PaddedIndexRows(n: nat, ix: nat, iy: nat, iz: nat)
    ensures PaddedIndex(n, ix, iy, iz) == (ix * n + iy) * (2 * HalfSize(n)) + iz
  {
  }

  lemma {:induction false} BufferRows(n: nat)
    ensures BufferLength(n) == (n * n) * (2 * HalfSize(n))
  {
  }

  /** The padded index determines the row (ix, iy) and the column iz; the
      column never reaches the padding because n < 2 * n2. */
  lemma {:induction false} PaddedRoundTrip(n: nat, ix: nat, iy: nat, iz: nat)
    requires ix < n && iy < n && iz < n
    ensures PaddedIndex(n, ix, iy, iz) / (2 * HalfSize(n)) / n == ix
    ensures (PaddedIndex(n, ix, iy, iz) / (2 * HalfSize(n))) % n == iy
    ensures PaddedIndex(n, ix, iy, iz) % (2 * HalfSize(n)) == iz
  {
    var w := 2 * HalfSize(n);
    var p := PaddedIndex(n, ix, iy, iz);
    PaddedIndexRows(n, ix, iy, iz);
    DivModUnique(p, w, ix * n + iy, iz);
    DivModUnique(ix * n + iy, n, ix, iy);
  }

  /** Distinct cells read distinct doubles. */
  lemma {:induction false} PaddedIndexInjective(n: nat, ix: nat, iy: nat, iz: nat, jx: nat, jy: nat, jz: nat)
    requires ix < n && iy < n && iz < n
    requires jx < n && jy < n && jz < n
    requires PaddedIndex(n, ix, iy, iz) == PaddedIndex(n, jx, jy, jz)
    ensures ix == jx && iy == jy && iz == jz
  {
    PaddedRoundTrip(n, ix, iy, iz);
    PaddedRoundTrip(n, jx, jy, jz);
  }

  // ---------------------------------------------------------------------
  // Row-major numbering of the n * n * n cells
  // ---------------------------------------------------------------------

  function CellCount(n: nat): nat
  {
    n * n * n
  }

  /** Position of cell (ix, iy, iz) in the row-major visiting order of the
      two cell loops. */
  function CellIndex(n: nat, ix: nat, iy: nat, iz: nat): nat
  {
    (ix * n + iy) * n + iz
  }

  /** The cell the loops `for ix < n, for iy < n, for iz < n` visit at
      step c. */
  function CellDecompose(n: nat, c: nat): (nat, nat, nat)
  {
    Walk(n, n, c)
  }

  /** Every cell of the loops has a position below n^3, and the cell at
      that position is the cell itself. */
  lemma {:induction false} CellRoundTrip(n: nat, ix: nat, iy: nat, iz: nat)
    requires ix < n && iy < n && iz < n
    ensures CellIndex(n, ix, iy, iz) < CellCount(n)
    ensures CellDecompose(n, CellIndex(n, ix, iy, iz)) == (ix, iy, iz)
  {
    RankBelow(n, n, ix, iy, iz);
    WalkRoundTrip(n, n, ix, iy, iz);
  }

  /** The cell after the last of a row is the first of the next row, and
      the cell after the last of all is the cell count. */
  lemma {:induction false} CellIndexCarry(n: nat, ix: nat, iy: nat)
    ensures CellIndex(n, ix, iy, n) == CellIndex(n, ix, iy + 1, 0)
    ensures CellIndex(n, ix, n, 0) == CellIndex(n, ix + 1, 0, 0)
    ensures CellIndex(n, n, 0, 0) == CellCount(n)
  {
    AddMul(ix * n + iy, 1, n);
    AddMul(ix, 1, n);
  }

  /** Every position below n^3 is the position of one cell of the loops. */
  lemma {:induction false} CellDecomposeInRange(n: nat, c: nat)
    requires c < CellCount(n)
    ensures CellDecompose(n, c).0 < n && CellDecompose(n, c).1 < n && CellDecompose(n, c).2 < n
    ensures CellIndex(n, CellDecompose(n, c).0, CellDecompose(n, c).1, CellDecompose(n, c).2) == c
  {
    WalkRank(n, n, c);
  }
}
