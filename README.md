# Turbulent magnetic field grid

A model of CRPropa's `TurbulentMagneticFieldGrid` plus three helpers of its common header.

The grid object holds `samples^3` magnetic field vectors. It synthesises them from a random spectrum with a power-law amplitude. `initialize`:

- fills three half-size complex buffers (`Bkx`, `Bky`, `Bkz`), one wavevector at a time;
- transforms each buffer in place to real space;
- sums the squares of the `n^3` real samples;
- stores every sample scaled by the weight that gives the grid the requested root mean square `Brms`.

The common header contributes `digit`, `clip` and `pow_integer`.

Modules, in dependency order:

- `Arithmetic`: integer and real facts the layout and the algebra rest on.
- `Common`: C++ truncating `/` and `%`, `digit`, `clip`, `pow_integer` and a reference power function.
- `Vectors`: `Vector3` with its sum, scaling, division, dot and cross product, and the orthogonality facts the basis needs.
- `Numerics`: the floating-point library calls (`cos`, `sin`, `sqrt`, `pow`, `mag`, `isParallel`) as a `Library` value of functions. Two predicates say what the proofs assume:
  - `MagnitudeLaws`: `mag` is zero exactly for the zero vector. Nothing is assumed about `isParallel`: every parallelism test is admitted.
  - `RootLaws`: `sqrt` is the exact root and `pow(x, 2) == x * x`.
  - `NormLaws`: `mag` is the Euclidean length, non-negative with `mag(v)^2 == v . v`. It includes `MagnitudeLaws` (`Numerics.NormLawsMagnitude`).
  - `TrigLaws`: `cos(x)^2 + sin(x)^2 == 1`.
- `Randomness`: the generator as a class with a seed and the kinds of the draws made since seeding. The value of a draw is a function of the two, held by a `Source`.
- `GridLayout`: the wave-number table `K`, `n2`, the flat complex-slot index, the padded real index, and the visiting order of three nested loops.
- `Spectrum`: the band test, the orthogonal basis, the coefficient of one wavevector, and the three buffers the loops must produce.
- `Normalization`: the inverse transform (a `C2R` value), the cells read back through the padded index, `sumB2`, the weight and the mean square of the stored grid.
- `TurbulentField`: the loops of `initialize` as methods over arrays, and the class `TurbulentMagneticFieldGrid` with its constructor, `setSeed`, `initialize` and the two getters.

The field values are Dafny `real`s, and the library calls are uninterpreted functions. "Expected" means the value determined by the parameters, the library functions, the transform and the generator state where the synthesis starts:

- Every method of the synthesis is proved against that expected value: the buffers after the filling loops, the draws made, `sumB2`, and every grid cell.
- The properties the code relies on are proved about the expected value as lemmas: index bounds and injectivity, the band filter, orthogonality, transversality, the draw order, and the mean square `Brms^2`.

The model follows the code where it departs from the intent: for odd `n` the wave-number table is built with the same integer division, so its last entry is `(n-1)/n - 2` (`GridLayout.WaveNumberOddLast`, `GridLayout.WaveNumbersOfThree`).

One departure is corrected instead (see "## Findings"). As written, lines 66-73 take the cross-product basis whenever `isParallel` reports ek as not parallel to (1,1,1). For a wavevector anti-parallel to (1,1,1) that answer makes e1 zero, and line 75 divides by its zero magnitude. For even n the loops visit such a wavevector, (n/2, n/2, n/2) with ek = (-1/2, -1/2, -1/2). Lines 55-63 skip it unless kMin <= sqrt(3)/2 <= kMax, and the division happens only if `isParallel` answers "not parallel" there, as a test by angle does. The model keeps the as-written choice as `Spectrum.RawBasisAsWritten`. The synthesis uses `Spectrum.RawBasis`, which also takes the fixed basis when `n0 x ek` is zero.

## Model

| member | source | states |
|---|---|---|
| Common.TDiv | include/crpropa/Common.h:25 | C++ `/` on `int`: the magnitude of the quotient is \|a\| div \|b\|, and its sign is the product of the operand signs (truncation toward zero) |
| Common.TRem | include/crpropa/Common.h:25 | C++ `%`: `TDiv(a, b) * b + r == a`, \|r\| = \|a\| mod \|b\| < \|b\|, and r has the sign of the dividend |
| Common.Digit | include/crpropa/Common.h:23-26 | `digit(value, d)` for a non-zero d whose `d * 10` fits an `int`: the result lies in -9..9 |
| Common.DigitCharacterization | include/crpropa/Common.h:24-26 | the complete behaviour of `digit`: the decimal digit of \|value\| in position \|d\|, signed by sign(value) * sign(d) |
| Common.DigitOfNonNegative | include/crpropa/Common.h:23-26 | for value >= 0 and d > 0, `digit(value, d) == (value / d) % 10`, and it lies in 0..9 |
| Common.DigitOfNegative | include/crpropa/Common.h:24-26 | for value < 0 and d > 0 the truncating `%` gives the negated digit of \|value\|, which lies in -9..0 |
| Common.Min | include/crpropa/Common.h:31 | `std::min`: a lower bound of both arguments and equal to one of them |
| Common.Max | include/crpropa/Common.h:31 | `std::max`: an upper bound of both arguments and equal to one of them |
| Common.Clip | include/crpropa/Common.h:28-32 | for lower <= upper the result lies in [lower, upper]; it is x when x is in range, lower below the range, upper above it; for lower > upper it is lower |
| Common.ClipIdempotent | include/crpropa/Common.h:28-32 | clipping a clipped value changes nothing, also when the bounds are crossed |
| Common.PowInteger | include/crpropa/Common.h:55-67 | `pow_integer`: the base squared at half the exponent, times the base once more for an odd exponent. What it computes is stated by `Common.PowIntegerIsPower` and `Common.PowIntegerSmall` |
| Common.PowIntegerIsPower | include/crpropa/Common.h:57-61 | exponentiation by squaring (`exponent >> 1`, `exponent & 1`, base 1 at exponent 0) equals e-fold multiplication for every natural exponent |
| Common.PowIntegerSmall | include/crpropa/Common.h:55-67 | `pow_integer<0>(b) == 1`, `pow_integer<1>(b) == b`, `pow_integer<2>(x) == x*x` |
| Vectors.CrossPerpendicular | src/magneticField/turbulentMagneticFieldGrid.cpp:72-73 | a cross product is perpendicular to both factors, as `e1 = n0 x ek` and `e2 = ek x e1` need |
| Vectors.CrossOfPerpendicularNonZero | src/magneticField/turbulentMagneticFieldGrid.cpp:73 | `ek x e1` is non-zero when ek and e1 are non-zero and perpendicular, so `e2.mag()` is not zero |
| Vectors.UnitDiv | src/magneticField/turbulentMagneticFieldGrid.cpp:75-76 | a vector divided by a non-zero m with m^2 equal to its squared length is a unit vector |
| Vectors.OrthonormalCombination | src/magneticField/turbulentMagneticFieldGrid.cpp:80 | e1 c + e2 s for perpendicular unit e1, e2 has squared length c^2 + s^2 |
| Vectors.PhasedAmplitude | src/magneticField/turbulentMagneticFieldGrid.cpp:79-95 | with c^2 + s^2 = 1 and cp^2 + sp^2 = 1, the vector (e1 c + e2 s) a times cp and times sp has squared lengths adding up to a^2 |
| Vectors.NormalizedOrthogonal | src/magneticField/turbulentMagneticFieldGrid.cpp:75-76 | dividing two perpendicular non-zero vectors by non-zero magnitudes keeps them non-zero and perpendicular |
| Vectors.NormalizedPerpendicular | src/magneticField/turbulentMagneticFieldGrid.cpp:75-76 | a vector perpendicular to e1 and e2 stays perpendicular to them after the division by their magnitudes |
| Vectors.NormSquared | src/magneticField/turbulentMagneticFieldGrid.cpp:123 | a squared length is non-negative and zero exactly for the zero vector |
| Numerics.MagnitudeNonZero | src/magneticField/turbulentMagneticFieldGrid.cpp:52 | under `MagnitudeLaws`, `mag` is non-zero exactly for non-zero vectors |
| Numerics.NormLawsMagnitude | src/magneticField/turbulentMagneticFieldGrid.cpp:52 | a Euclidean `mag` is zero exactly for the zero vector: `NormLaws` implies `MagnitudeLaws` |
| Numerics.RootOfPositive | src/magneticField/turbulentMagneticFieldGrid.cpp:125 | under the root laws, the root of a positive mean square is positive and squares back to it |
| Randomness.Random.Seed | src/magneticField/turbulentMagneticFieldGrid.cpp:18 | `random.seed(s)` sets the seed and restarts the draw history |
| Randomness.Random.Rand | src/magneticField/turbulentMagneticFieldGrid.cpp:79 | `rand()` appends one uniform draw to the history, keeps the seed, and returns the source's value for seed and history |
| Randomness.Random.RandNorm | src/magneticField/turbulentMagneticFieldGrid.cpp:83 | `randNorm()` appends one normal draw, keeps the seed, and returns the source's value for seed and history |
| Randomness.Triples | src/magneticField/turbulentMagneticFieldGrid.cpp:79-86 | the draws of c in-band wavevectors number exactly 3c |
| Randomness.TriplesAdd | src/magneticField/turbulentMagneticFieldGrid.cpp:46-48 | the draws of a + b wavevectors are those of the first a followed by those of the next b |
| Randomness.TriplesOrder | src/magneticField/turbulentMagneticFieldGrid.cpp:79-86 | wavevector t consumes draw 3t (`rand`), 3t+1 (`randNorm`) and 3t+2 (`rand`) |
| GridLayout.WaveTable | src/magneticField/turbulentMagneticFieldGrid.cpp:33-35 | the table K has n entries, and entry i is `i/n - i/(n/2)` with integer division in the second term |
| GridLayout.WaveNumber | src/magneticField/turbulentMagneticFieldGrid.cpp:35 | entry i of `K`: i/n in real arithmetic minus the integer quotient of i by n/2. Its values are stated by `GridLayout.WaveNumberEven`, `GridLayout.WaveNumberRange` and `GridLayout.WaveNumberOddLast` |
| GridLayout.WaveNumberEven | src/magneticField/turbulentMagneticFieldGrid.cpp:35 | for even n, K[i] = i/n in the lower half and i/n - 1 in the upper half |
| GridLayout.WaveNumberRange | src/magneticField/turbulentMagneticFieldGrid.cpp:33-35 | for even n, K[0] = 0 and every K[i] lies in [-1/2, 1/2) |
| GridLayout.WaveNumberOddLast | src/magneticField/turbulentMagneticFieldGrid.cpp:35 | for odd n >= 3 the last entry is (n-1)/n - 2, which is below -1 |
| GridLayout.WaveNumbersOfThree | src/magneticField/turbulentMagneticFieldGrid.cpp:35 | for n = 3 the table is [0, -2/3, -4/3] |
| GridLayout.HalfSize | src/magneticField/turbulentMagneticFieldGrid.cpp:24 | `n2 = n/2 + 1`: it is at most n for n >= 1, and n < 2 * n2, so `K[iz]` with iz < n2 is in bounds and a padded row holds n reals |
| GridLayout.SlotIndex | src/magneticField/turbulentMagneticFieldGrid.cpp:50 | the row-major complex slot of (ix, iy, iz) in an n x n x n2 array. Its bounds, injectivity and round trip are stated by the `SlotIndex*` and `SlotRoundTrip` lemmas |
| GridLayout.SlotIndexValue | src/magneticField/turbulentMagneticFieldGrid.cpp:50 | the loops' `ix*n*n2 + iy*n2 + iz` is a slot index below n*n*n2 |
| GridLayout.SlotIndexInRange | src/magneticField/turbulentMagneticFieldGrid.cpp:28-50 | every slot the loops visit lies inside the n*n*n2 slots allocated for each buffer |
| GridLayout.SlotIndexInjective | src/magneticField/turbulentMagneticFieldGrid.cpp:46-50 | distinct wavevectors use distinct slots |
| GridLayout.SlotRoundTrip | src/magneticField/turbulentMagneticFieldGrid.cpp:46-50 | the wavevector visited at step `SlotIndex(ix, iy, iz)` is (ix, iy, iz) |
| GridLayout.DecomposeInRange | src/magneticField/turbulentMagneticFieldGrid.cpp:46-50 | step j of the loops is in range and writes slot j, so every slot is written, in increasing order |
| GridLayout.SlotIndexCarry | src/magneticField/turbulentMagneticFieldGrid.cpp:46-50 | the slot after a row's last is the next row's first, and after the last plane comes the end of the buffer: the loops leave no gaps |
| GridLayout.WalkRoundTrip | src/magneticField/turbulentMagneticFieldGrid.cpp:46-48 | three nested loops reach (x, y, z) after exactly `(x*n + y)*m + z` steps |
| GridLayout.RankInjective | src/magneticField/turbulentMagneticFieldGrid.cpp:46-48 | distinct loop positions have distinct ranks |
| GridLayout.PaddedIndex | src/magneticField/turbulentMagneticFieldGrid.cpp:122 | the row-major position of a cell in the real output, whose rows hold 2*n2 doubles. Its bounds and injectivity are stated by `GridLayout.PaddedIndexInRange`, `GridLayout.PaddedRoundTrip` and `GridLayout.PaddedIndexInjective` |
| GridLayout.PaddedIndexInRange | src/magneticField/turbulentMagneticFieldGrid.cpp:119-122 | `ix*n*2*n2 + iy*2*n2 + iz` for cells below n is below 2*n*n*n2, the doubles in each buffer |
| GridLayout.PaddedRoundTrip | src/magneticField/turbulentMagneticFieldGrid.cpp:122 | the padded index gives back ix, iy and iz; iz never reaches the padding because n < 2 * n2 |
| GridLayout.PaddedIndexInjective | src/magneticField/turbulentMagneticFieldGrid.cpp:128-131 | distinct cells read distinct doubles |
| GridLayout.CellRoundTrip | src/magneticField/turbulentMagneticFieldGrid.cpp:128-131 | the row-major position of a cell is below n^3, and the cell at that position is the cell itself |
| GridLayout.CellDecomposeInRange | src/magneticField/turbulentMagneticFieldGrid.cpp:119-121 | every position below n^3 is the position of one cell of the loops |
| Spectrum.KMin | src/magneticField/turbulentMagneticFieldGrid.cpp:40 | `kMin = spacing / lMax` is positive |
| Spectrum.KMax | src/magneticField/turbulentMagneticFieldGrid.cpp:41 | `kMax = spacing / lMin` is positive |
| Spectrum.InBand | src/magneticField/turbulentMagneticFieldGrid.cpp:52-56 | the band test: `ek.mag()` lies in [kMin, kMax]. `Spectrum.InBandNonZero` states that a wavevector passing it is non-zero |
| Spectrum.InBandNonZero | src/magneticField/turbulentMagneticFieldGrid.cpp:52-63 | a wavevector that passes the band test is non-zero, so its basis is defined |
| Spectrum.RawBasisAsWritten | src/magneticField/turbulentMagneticFieldGrid.cpp:66-73 | the basis as the code chooses it: the fixed pair (-1,1,0), (1,1,-2) when `isParallel` reports ek parallel to (1,1,1), otherwise `n0 x ek` and `ek x e1`. `Spectrum.AntiParallelSlot` states where it fails |
| Spectrum.AntiParallelSlot | src/magneticField/turbulentMagneticFieldGrid.cpp:35-75 | for every even n the loops visit slot (n/2, n/2, n/2), whose wavevector is (-1/2, -1/2, -1/2), anti-parallel to (1,1,1). If `isParallel` reports it as not parallel, the basis as written has e1 = 0 with magnitude 0, the divisor of line 75 |
| Spectrum.RawBasis | src/magneticField/turbulentMagneticFieldGrid.cpp:66-73 | the corrected basis choice: the fixed pair also when `n0 x ek` is zero. Its properties are stated by `Spectrum.RawBasisCorrection` and `Spectrum.RawBasisOrthogonal` |
| Spectrum.RawBasisCorrection | src/magneticField/turbulentMagneticFieldGrid.cpp:66-73 | the corrected basis equals the basis as written wherever the latter's e1 is non-zero, and differs only where it is zero |
| Spectrum.RawBasisOrthogonal | src/magneticField/turbulentMagneticFieldGrid.cpp:65-74 | for every non-zero ek and every answer of `isParallel`, the corrected e1 and e2 are non-zero and perpendicular. When the test says "parallel" they are perpendicular to (1,1,1). When it says "not parallel", or ek is exactly parallel or anti-parallel to (1,1,1), they are perpendicular to ek |
| Spectrum.Basis | src/magneticField/turbulentMagneticFieldGrid.cpp:75-76 | e1 and e2 divided by their magnitudes, which `Numerics.MagnitudeNonZero` shows to be non-zero. `Spectrum.BasisOrthogonal` states its properties |
| Spectrum.BasisOrthogonal | src/magneticField/turbulentMagneticFieldGrid.cpp:65-76 | the same non-zero and orthogonality facts after division by the magnitudes |
| Spectrum.UnitByMagnitude | src/magneticField/turbulentMagneticFieldGrid.cpp:75-76 | with a Euclidean `mag`, a non-zero vector divided by its `mag` is a unit vector |
| Spectrum.BasisUnit | src/magneticField/turbulentMagneticFieldGrid.cpp:75-76 | with a Euclidean `mag`, both basis vectors have unit length after the division; with `Spectrum.BasisOrthogonal`, e1 and e2 are orthonormal |
| Spectrum.TransverseCombination | src/magneticField/turbulentMagneticFieldGrid.cpp:79-95 | for any trig values, amplitude and phase factors, `(e1 cos + e2 sin) * a * cosPhase` and `... * sinPhase` are perpendicular to every vector perpendicular to e1 and e2 |
| Spectrum.Polarized | src/magneticField/turbulentMagneticFieldGrid.cpp:80-95 | the mode of polarisation e1 c + e2 s scaled by a, its real part times cp and its imaginary part times sp. `Spectrum.PolarizedAmplitude` states its squared length |
| Spectrum.PolarizedAmplitude | src/magneticField/turbulentMagneticFieldGrid.cpp:79-95 | for orthonormal e1, e2, c^2 + s^2 = 1 and cp^2 + sp^2 = 1, the two parts of the mode have squared lengths adding up to a^2 |
| Spectrum.ModeAmplitude | src/magneticField/turbulentMagneticFieldGrid.cpp:75-95 | under `NormLaws` and `TrigLaws`, the mode on the basis of ek with any angles theta and phase has squared length a^2 over its two parts |
| Spectrum.Coefficient | src/magneticField/turbulentMagneticFieldGrid.cpp:78-95 | the real-part and the imaginary-part vector of an in-band coefficient are perpendicular to ek (per the basis cases above), or to (1,1,1) in the parallel branch. Under `NormLaws` and `TrigLaws` their squared lengths add up to a^2 with a = g * k^(alpha/2): the polarisation is a unit vector and the amplitude is the power law's |
| Spectrum.SpectrumBuffer | src/magneticField/turbulentMagneticFieldGrid.cpp:28-98 | buffer `Bk<a>` has 2*n*n*n2 doubles; double 2j is the real part and 2j+1 the imaginary part of component a in slot j |
| Spectrum.SlotVectorAt | src/magneticField/turbulentMagneticFieldGrid.cpp:51 | the slot of (ix, iy, iz) has wavevector `(K[ix], K[iy], K[iz])` |
| Spectrum.SlotStepOutOfBand | src/magneticField/turbulentMagneticFieldGrid.cpp:55-63 | when `k < kMin \|\| k > kMax`, the slot holds the zero mode and consumes no draw |
| Spectrum.SlotStepInBand | src/magneticField/turbulentMagneticFieldGrid.cpp:79-86 | an in-band slot holds the coefficient of the three draws (`rand`, `randNorm`, `rand`) after those of the earlier in-band slots, and consumes exactly three |
| Spectrum.SlotMode | src/magneticField/turbulentMagneticFieldGrid.cpp:50-95 | the mode of slot j: zero out of band, otherwise the coefficient of the three draws that follow those of the earlier in-band slots. `Spectrum.OutOfBandMode`, `Spectrum.InBandMode` and `Spectrum.SlotTransverse` state its properties |
| Spectrum.OutOfBandMode | src/magneticField/turbulentMagneticFieldGrid.cpp:55-63 | an out-of-band slot holds the zero mode |
| Spectrum.InBandMode | src/magneticField/turbulentMagneticFieldGrid.cpp:78-95 | an in-band slot's wavevector is non-zero, and the slot holds the coefficient of the three draws following the earlier in-band slots' draws |
| Spectrum.OutOfBandIsZero | src/magneticField/turbulentMagneticFieldGrid.cpp:55-62 | out of band, the real and the imaginary double of the slot are zero in each of the three buffers |
| Spectrum.SlotTransverse | src/magneticField/turbulentMagneticFieldGrid.cpp:79-95 | the stored real-part vector `(Bkx[i][0], Bky[i][0], Bkz[i][0])` and imaginary-part vector are perpendicular to the slot's wavevector (per the basis cases above) |
| Normalization.C2R.Execute | src/magneticField/turbulentMagneticFieldGrid.cpp:100-115 | the in-place transform keeps the buffer's length |
| Normalization.Transformed | src/magneticField/turbulentMagneticFieldGrid.cpp:100-115 | the transformed buffer has the 2*n*n*n2 doubles of the spectrum buffer |
| Normalization.CellValueAt | src/magneticField/turbulentMagneticFieldGrid.cpp:119-123 | the cell at row-major position `(ix*n + iy)*n + iz` is `(Bx[i], By[i], Bz[i])` at the padded index i of (ix, iy, iz) |
| Normalization.Cells | src/magneticField/turbulentMagneticFieldGrid.cpp:119-123 | the n^3 cells in the loops' order, each the padded sample of its cell |
| Normalization.CellSquare | src/magneticField/turbulentMagneticFieldGrid.cpp:123 | the term one cell adds: the sum of its components' squares taken with `pow`. `Normalization.SumB2IsSquares` ties it to the squared length |
| Normalization.SumB2 | src/magneticField/turbulentMagneticFieldGrid.cpp:118-124 | the sum of the first c cells' terms. `Normalization.SumB2IsSquares` and `Normalization.SumB2NonNegative` state its value and its sign |
| Normalization.SumB2Cell | src/magneticField/turbulentMagneticFieldGrid.cpp:122-123 | one step of the summation loop reads in bounds and adds `pow(Bx[i],2) + pow(By[i],2) + pow(Bz[i],2)` of the cell at that position |
| Normalization.SumB2IsSquares | src/magneticField/turbulentMagneticFieldGrid.cpp:123 | with `pow(x, 2) == x*x`, `sumB2` is the sum of the cells' squared lengths |
| Normalization.SumB2NonNegative | src/magneticField/turbulentMagneticFieldGrid.cpp:118-124 | with `pow(x, 2) == x*x`, `sumB2` is never negative |
| Normalization.HasPowerIffPositive | src/magneticField/turbulentMagneticFieldGrid.cpp:125 | with an exact root, the weight's divisor `sqrt(sumB2 / n^3)` is non-zero exactly when `sumB2 > 0` |
| Normalization.RootOfMeanIffPositive | src/magneticField/turbulentMagneticFieldGrid.cpp:125 | `sqrt(s / N)` vanishes exactly for s == 0 (s >= 0, N > 0) |
| Normalization.MeanRoot | src/magneticField/turbulentMagneticFieldGrid.cpp:125 | where the weight is defined, `sumB2 / n^3` is positive and its root squares back to it |
| Normalization.Weight | src/magneticField/turbulentMagneticFieldGrid.cpp:125 | Brms over the root of the mean square sumB2 / n^3. `Normalization.MeanSquareIsBrms` states that it gives the grid mean square Brms^2 |
| Normalization.Scale | src/magneticField/turbulentMagneticFieldGrid.cpp:131-133 | every cell is multiplied by the weight |
| Normalization.ScaledSquares | src/magneticField/turbulentMagneticFieldGrid.cpp:127-134 | scaling every cell by w multiplies the sum of squares by w^2 |
| Normalization.MeanSquareIsBrms | src/magneticField/turbulentMagneticFieldGrid.cpp:118-133 | the cells scaled by `Brms / sqrt(sumB2 / n^3)` have mean square `Brms^2` (exact root, `pow(x, 2) == x*x`) |
| Normalization.NormalizedMeanSquare | src/magneticField/turbulentMagneticFieldGrid.cpp:118-133 | the same, from the sum of squared lengths and the root squaring back |
| TurbulentField.ExpectedGrid | src/magneticField/turbulentMagneticFieldGrid.cpp:23-134 | the n^3 cells a synthesis stores, in row-major order. `TurbulentField.GridMeanSquare` and `TurbulentField.GridCellInOrder` state its properties |
| TurbulentField.GridMeanSquare | src/magneticField/turbulentMagneticFieldGrid.cpp:118-133 | the grid a synthesis stores has n^3 cells and mean square `Brms^2` |
| TurbulentField.GridCellInOrder | src/magneticField/turbulentMagneticFieldGrid.cpp:128-133 | the cell the storing loops write at (a, b, c) is entry `(a*n + b)*n + c` of the expected grid |
| TurbulentField.WaveNumbers | src/magneticField/turbulentMagneticFieldGrid.cpp:33-35 | the loop fills K with the table of wave numbers |
| TurbulentField.SampleMode | src/magneticField/turbulentMagneticFieldGrid.cpp:65-95 | for a non-zero ek, makes the draws `rand`, `randNorm`, `rand` in this order and keeps the seed; returns the coefficient of those three values |
| TurbulentField.FilledStep | src/magneticField/turbulentMagneticFieldGrid.cpp:90-95 | writing the real and imaginary part of slot j extends the correctly filled prefix of a buffer by one slot |
| TurbulentField.StoreSlot | src/magneticField/turbulentMagneticFieldGrid.cpp:90-95 | writing the six parts of a slot's mode keeps the three buffers filled up to and including that slot |
| TurbulentField.SlotCoefficient | src/magneticField/turbulentMagneticFieldGrid.cpp:50-86 | the band test and the draws give the slot's mode (zero out of band), and the draw history advances by the slot's in-band count |
| TurbulentField.SampleSlot | src/magneticField/turbulentMagneticFieldGrid.cpp:65-95 | an in-band slot gets its prescribed mode from the next three draws |
| TurbulentField.VisitSlot | src/magneticField/turbulentMagneticFieldGrid.cpp:50-95 | one iteration of the innermost loop extends the filled buffers and the draw history by one slot |
| TurbulentField.FillRow | src/magneticField/turbulentMagneticFieldGrid.cpp:48-96 | the innermost loop fills one row of n2 slots and makes their draws |
| TurbulentField.PlaneStartIndex | src/magneticField/turbulentMagneticFieldGrid.cpp:46-50 | plane ix of the loops begins at slot `ix*n*n2` |
| TurbulentField.FillPlane | src/magneticField/turbulentMagneticFieldGrid.cpp:47-97 | the middle loop fills one plane of n rows |
| TurbulentField.FillSpectrum | src/magneticField/turbulentMagneticFieldGrid.cpp:46-98 | after the three nested loops, each buffer is the prescribed spectrum buffer; the generator keeps its seed and has made exactly `rand, randNorm, rand` for every in-band wavevector in row-major order |
| TurbulentField.ProgressComplete | src/magneticField/turbulentMagneticFieldGrid.cpp:46-98 | once the loops pass the last slot, the buffers are the spectrum buffers and the history holds the draws of all in-band slots |
| TurbulentField.ExecuteC2R | src/magneticField/turbulentMagneticFieldGrid.cpp:100-115 | a buffer is replaced in place by the transform of its old contents |
| TurbulentField.SumSquares | src/magneticField/turbulentMagneticFieldGrid.cpp:117-124 | the summation loops compute `sumB2` over the n^3 cells read through the padded index |
| TurbulentField.SumPlane | src/magneticField/turbulentMagneticFieldGrid.cpp:119-124 | the middle summation loop adds the cells of plane ix to the partial sum |
| TurbulentField.SumRow | src/magneticField/turbulentMagneticFieldGrid.cpp:120-124 | the innermost summation loop adds the cells of row (ix, iy) to the partial sum |
| TurbulentField.StoredValue | src/magneticField/turbulentMagneticFieldGrid.cpp:131-133 | the value one cell receives: its transformed sample read at the padded index, scaled by the weight. `TurbulentField.StoredValueAt` states it is read in bounds |
| TurbulentField.StoredValueAt | src/magneticField/turbulentMagneticFieldGrid.cpp:131-133 | a stored cell is `Vector3(Bx[i], By[i], Bz[i]) * weight` for its padded index i, read in bounds |
| TurbulentField.StoreNormalized | src/magneticField/turbulentMagneticFieldGrid.cpp:127-134 | every cell of the grid receives its padded sample times `weight` |
| TurbulentField.StorePlane | src/magneticField/turbulentMagneticFieldGrid.cpp:128-134 | the middle storing loop writes plane ix and keeps all earlier cells |
| TurbulentField.StoreRow | src/magneticField/turbulentMagneticFieldGrid.cpp:129-134 | the innermost storing loop writes row (ix, iy) and keeps all earlier cells |
| TurbulentField.TransformedBuffers | src/magneticField/turbulentMagneticFieldGrid.cpp:23-115 | three fresh buffers hold the transformed spectrum buffers; the generator has made the draws of all in-band wavevectors |
| TurbulentField.StoreGrid | src/magneticField/turbulentMagneticFieldGrid.cpp:117-134 | with `weight = Brms / sqrt(sumB2 / (n*n*n))`, every grid cell becomes the expected normalised cell |
| TurbulentField.Synthesize | src/magneticField/turbulentMagneticFieldGrid.cpp:23-134 | every grid cell becomes the expected cell of a synthesis from the generator's state, and exactly the in-band draws are made |
| TurbulentField.TurbulentMagneticFieldGrid.Parameters | src/magneticField/turbulentMagneticFieldGrid.cpp:6-13 | the object's `samples`, `spacing`, `lMin`, `lMax`, `Brms` and `powerSpectralIndex` |
| TurbulentField.TurbulentMagneticFieldGrid.PrefixInOrder | src/magneticField/turbulentMagneticFieldGrid.cpp:128-132 | a grid whose cell (a, b, c) is entry `(a*n + b)*n + c` of e holds e in row-major order |
| TurbulentField.TurbulentMagneticFieldGrid.constructor | src/magneticField/turbulentMagneticFieldGrid.cpp:6-15 | stores every parameter and seeds a fresh generator; then the fresh grid holds the expected grid of that seed, with exactly the in-band draws made |
| TurbulentField.TurbulentMagneticFieldGrid.SetSeed | src/magneticField/turbulentMagneticFieldGrid.cpp:17-20 | keeps the object invariant `Valid()`; after reseeding, the grid is the expected grid of the new seed with no earlier draws, and the history holds only this synthesis' draws |
| TurbulentField.TurbulentMagneticFieldGrid.Initialize | src/magneticField/turbulentMagneticFieldGrid.cpp:22-139 | keeps the object invariant `Valid()`; the grid becomes the expected grid of the generator's current state, the seed is kept, and the draws of the in-band wavevectors are appended |
| TurbulentField.TurbulentMagneticFieldGrid.GetRMSFieldStrength | src/magneticField/turbulentMagneticFieldGrid.cpp:141-143 | returns the stored `Brms` |
| TurbulentField.TurbulentMagneticFieldGrid.GetPowerSpectralIndex | src/magneticField/turbulentMagneticFieldGrid.cpp:145-147 | returns the stored `powerSpectralIndex` |
| TurbulentField.TurbulentMagneticFieldGrid.RMSOfGrid | src/magneticField/turbulentMagneticFieldGrid.cpp:118-143 | a synthesised grid has mean square `getRMSFieldStrength()^2` (exact root, `pow(x, 2) == x*x`) |

## Left out

- The basis as written at lines 66-73 is not what the synthesis uses. The model uses the corrected basis `Spectrum.RawBasis` (see "## Findings"), so the grid it proves things about is the one the code evidently intends. At the slot (n/2, n/2, n/2) of an even n, when kMin <= sqrt(3)/2 <= kMax and `isParallel` answers "not parallel" there, the code as written divides by zero; the model does not promise that behaviour.

- FFTW (`fftw_malloc`, `fftw_plan_dft_c2r_3d`, `fftw_execute`, `fftw_destroy_plan`, `fftw_free`): a foreign library. The transform is a parameter: a `C2R` value, a length-preserving map from a buffer to a buffer of the same size, applied in place. The buffers are arrays of 2*n*n*n2 reals; the complex slot i is doubles 2i and 2i+1, as in the `fftw_complex` layout.
- The generator's algorithm: `Random` is not part of this model. A draw's value is an arbitrary function of the seed and the draw history, which is what fixes the field for a seed. The default seeding of a new generator is not modelled; the constructor takes the seed as a parameter.
- `cos`, `sin`, `sqrt`, `pow`, `Vector3::mag` and `Vector3::isParallel`: floating-point library code, passed in as functions. Only the laws named above are assumed, where a proof needs them. The unit length of the basis and the amplitude of a coefficient hold only under `NormLaws` and `TrigLaws`; in floating point they hold up to rounding. Rounding is not modelled; all values are exact reals.
- Spectrum.SlotTransverse: the field is proved perpendicular to ek only when `isParallel` answers "not parallel" or ek is exactly parallel or anti-parallel to (1,1,1). With a tolerance, `isParallel` can call a nearly parallel ek parallel. The fixed basis (-1,1,0), (1,1,-2) is then perpendicular to (1,1,1), and that is what is proved, not perpendicularity to ek.
- Spectrum.Coefficient: same restriction as `SlotTransverse`.
- The grid's mean square is `Brms^2` only under exact `sqrt` and `pow(x, 2) == x*x` (`RootLaws`). The floating-point result is only close to it.
- `sumB2 == 0` (every in-band coefficient zero, or an empty band): the source divides by zero at line 125. The constructor, `setSeed` and `initialize` therefore require that the synthesis is defined (`Synthesizable`). `Normalization.HasPowerIffPositive` shows this means `sumB2 > 0`.
- `samples = 1`: the table divides by `n / 2 == 0`, so `samples >= 2` is required. Positive `spacing`, `lMin` and `lMax` are required for the band limits.
- `size_t` and `int` overflow of the index arithmetic: indices are unbounded naturals.
- The fresh buffers start at zero rather than with the unspecified contents of `fftw_malloc`; every slot is overwritten before it is read.
- `K` is a variable-length array filled once and only read after. It is modelled as a sequence value built by a loop.
- `getCorrelationLength`: real-exponent `pow`, with removable singularities at a = 0 and a = 1.
- The `MagneticFieldGrid` base class is not part of this model: `origin`, `samples` and `spacing` are fields of the class here, and the grid is a three-dimensional array. Field lookup and interpolation belong to the base class and are not modelled.
- `gaussInt`: floating-point quadrature over tabulated constants.
- `interpolate`, `interpolate2d`, `interpolateEquidistant`, `closestIndex`, `getDataPath`, `getInstallPrefix`: declared without bodies in the header, so there is no behaviour to model. The path functions are installation I/O.
- include/crpropa/module/Output.h: declarations of an output module only, with no logic.
- Common.Digit: requires `d != 0` and requires `value` and `d * 10` to fit a 32-bit `int`. Outside that range the C++ expression divides by zero or overflows, which is undefined behaviour.
- `clip` is a template; it is modelled on reals only.
- `pow_integer` takes its exponent as a template parameter; here it is an ordinary natural-number argument, with the recursion written as a recursive function.

## Findings

| source | as written | input that shows it | evidently intended | confidence | as-written member | corrected member |
|---|---|---|---|---|---|---|
| src/magneticField/turbulentMagneticFieldGrid.cpp:66-75 | the cross-product basis e1 = n0 x ek is taken whenever `isParallel(ek, n0)` answers "not parallel", and line 75 divides e1 by its magnitude | any even `samples` n with kMin <= sqrt(3)/2 <= kMax, for example `lMin` = `spacing` and `lMax` = 10 * `spacing`. The loops then visit slot (n/2, n/2, n/2), where ek = (-1/2, -1/2, -1/2). An angle-based `isParallel` reports this anti-parallel vector as not parallel, so e1 = (0, 0, 0) and `e1.mag()` is 0 | the fixed basis (-1,1,0), (1,1,-2) for every ek along plus or minus (1,1,1), so that e1 and e2 are non-zero and orthogonal | medium: depends on `Vector3::isParallel`, which is not part of this model; not executed | Spectrum.AntiParallelSlot | Spectrum.RawBasisOrthogonal |
