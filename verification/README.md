# Mandelbrot set escape-time evaluator in Dafny

This project models the core of `mandelbrotset.py`, a Python program that draws the Mandelbrot set. The class `MandelbrotSet` stores a real range, an imaginary range, an iteration limit L and a coordinate count N. From these it builds an N x N grid of complex sample points. For each point C it counts the updates z := z^2 + C, starting from z = C, that are done before |z| > 2 is seen, capped at L. The resulting N x N grid of counts is what gets plotted.

Arithmetic is exact: the program's `complex` values are modelled as pairs of Dafny `real`s (`ComplexNumbers.Complex`). The escape test `abs(z) > 2` becomes |z|^2 > 4 (`ComplexNumbers.Escapes`). `ComplexNumbers.AbsExceedsTwoIff` proves that the two tests agree.

Modules:

- `ComplexNumbers` (complex.dfy): the complex numbers, their sum, product, square, conjugate and squared modulus, and the escape test.
- `Escape` (escape.dfy): one step of the recurrence (`IterFormula`, from `__iter_formula`) and the orbit z_0 = start, z_(k+1) = z_k^2 + C.
  - `EscapeTime` is the reference definition of the count. It peels one step off the front of the orbit.
  - `IsEscapeCount` defines the count as the first index below L at which the orbit is outside the disc, or L when there is none.
  - The lemmas prove that the two definitions agree. They also cover the origin, conjugate symmetry, and an orbit that first escapes exactly at z_L.
- `Sampling` (sampling.dfy): `numpy.linspace` is modelled as numpy computes it: `start + i * step`, with the last sample overwritten by `stop`. Also here are `numpy.meshgrid` with its default "xy" indexing and the grid `real_grid + imag_grid * 1j`. The lemmas cover endpoints, uniform spacing, monotonicity and symmetry.
- `Mandelbrot` (mandelbrot_set.dfy): the class `MandelbrotSet`.
  - Its configuration fields are `const`, because the program sets them once in the constructor.
  - `GetN` is the escape-count loop (`__get_n`). It is a `for` loop with two early returns, proved equal to `EscapeTime` and to the first-escape characterisation.
  - `ComputeSet` is `__compute_set`. It allocates an `array2<int>` and fills it with nested loops. A ghost out-parameter records the order in which cells are written.
  - The module-level lemmas cover the row-major visiting order, the conjugate symmetry of the grid, and a concrete 3 x 3 example.

Where the code differs from its own documentation, the model follows the code:

- The doc comment of `__get_n` (mandelbrotset.py:31,35) speaks of a cap of 255. The code caps at `iteration_lim`.
- A count of L has two meanings. It covers points that never left the disc within L updates. It also covers points whose first escape is at z_L, because the escape test runs before the limit test. `Escape.EscapeAtLimitReportsLimit` exhibits this with C = 2.
- The constructor (mandelbrotset.py:13-16) validates nothing. An iteration limit of 0 is accepted and gives 0 for every point. N = 0 gives an empty grid.
- Conjugate symmetry of the grid holds only for N >= 2. With N = 1 the single imaginary sample is the range minimum, which has no mirror sample.

## Model

| member | source | states |
|---|---|---|
| `ComplexNumbers.Escapes` | mandelbrotset.py:39 | the escape test `abs(z) > 2`, written as squared modulus > 4; `AbsExceedsTwoIff` proves the two tests agree |
| `ComplexNumbers.NormSq` | mandelbrotset.py:39 | the squared modulus used for `abs(z) > 2` is never negative |
| `ComplexNumbers.AbsExceedsTwoIff` | mandelbrotset.py:39 | for the non-negative m with m*m equal to the squared modulus, `m > 2` holds exactly when the squared modulus exceeds 4, so testing squares is the program's escape test |
| `ComplexNumbers.ConjNormSq` | mandelbrotset.py:39 | conjugation preserves the modulus and hence the escape test |
| `Escape.IterFormula` | mandelbrotset.py:18-27 | one step z^2 + C, with `z ** 2` as the product of z with itself; its components are given by `IterFormulaParts` |
| `Escape.Orbit` | mandelbrotset.py:46 | z_k, the value `complex_num` holds after k rebindings at line 46, starting from the argument; `OrbitShift` and the invariant of `GetN` tie it to the loop |
| `Escape.IterFormulaParts` | mandelbrotset.py:18-27 | z^2 + C for z = a+bi and C = c+di is (a^2 - b^2 + c) + (2ab + d)i, and the step commutes with conjugation |
| `Escape.EscapeTime` | mandelbrotset.py:29-46 | the count never exceeds the limit L, and is 0 when the starting value is already outside the disc |
| `Escape.OrbitShift` | mandelbrotset.py:27 | the orbit started one step later is the same orbit with indices shifted by one |
| `Escape.EscapeTimeIsFirstEscape` | mandelbrotset.py:38-46 | the count n is in [0, L], every orbit value before index n is inside the disc, and when n < L the value at index n is outside |
| `Escape.EscapeCountIff` | mandelbrotset.py:38-46 | the first-escape characterisation holds of a number exactly when it equals the count, in both directions |
| `Escape.NoEarlyEscapeGivesLimit` | mandelbrotset.py:38-46 | if z_0 .. z_(L-1) are all inside the disc the count is L, whatever z_L is |
| `Escape.EscapeAtLimitReportsLimit` | mandelbrotset.py:38-43 | C = 2: z_0 is inside, z_1 = 6 is outside; with L = 1 the count is 1 = L (the same as a non-escaping point), with L = 5 it is the escape index 1 |
| `Escape.OrbitOfOrigin` | mandelbrotset.py:27 | the orbit of C = 0 stays at 0 |
| `Escape.OriginReachesLimit` | mandelbrotset.py:38-46 | the count of C = 0 is L for every L |
| `Escape.OrbitConj` | mandelbrotset.py:27 | the orbit of the conjugate is the conjugate of the orbit |
| `Escape.EscapeTimeConj` | mandelbrotset.py:27-46 | conjugating C and the start leaves the count unchanged |
| `Sampling.Linspace` | mandelbrotset.py:55-56 | the sample vector has exactly N entries |
| `Sampling.StepReachesStop` | mandelbrotset.py:55-56 | for N >= 2 the stop value that numpy writes into the last sample equals start + (N-1) * step |
| `Sampling.LinspaceUniform` | mandelbrotset.py:55-56 | sample 0 is the range minimum; N = 1 gives just the minimum; for N >= 2 the last sample is the maximum, sample i is min + i*(max-min)/(N-1), and consecutive samples differ by that step |
| `Sampling.LinspaceMonotone` | mandelbrotset.py:55-56 | with min <= max the samples never decrease |
| `Sampling.LinspaceSymmetric` | mandelbrotset.py:56 | for a range (-a, a) and N >= 2, the sample i-th from the end is the negation of sample i |
| `Sampling.Meshgrid` | mandelbrotset.py:58 | both grids have one row per imaginary sample and one column per real sample |
| `Sampling.ComplexGrid` | mandelbrotset.py:59 | `real_grid + imag_grid * 1j` has the shape of its operands |
| `Sampling.CoordinateGrid` | mandelbrotset.py:55-59 | the coordinate grid is N x N |
| `Sampling.CoordinateGridAt` | mandelbrotset.py:58-59 | grid entry [x][y] has real part `real[y]` and imaginary part `imaginary[x]` |
| `Mandelbrot.MandelbrotSet.constructor` | mandelbrotset.py:5-16 | the four configuration values are stored as given, with no validation |
| `Mandelbrot.MandelbrotSet.GetN` | mandelbrotset.py:29-46 | for L >= 0 the loop always returns, never falls through; the result is in [0, L], is 0 when abs(C) > 2, is the first escape index (or L), and equals `EscapeTime` |
| `Mandelbrot.MandelbrotSet.ComputeSet` | mandelbrotset.py:49-67 | a fresh N x N array whose cell [x, y] holds the count of `real[y] + imaginary[x]*i` and nothing else; the cells are written in row-major order |
| `Mandelbrot.RowMajorPrefixExactlyOnce` | mandelbrotset.py:63-65 | the first x rows of the loop order contain each cell of those rows and nothing else, with no repeats |
| `Mandelbrot.RowMajorExactlyOnce` | mandelbrotset.py:63-65 | the nested loops write every cell of the N x N grid exactly once |
| `Mandelbrot.GridConjugateSymmetry` | mandelbrotset.py:55-65 | for an imaginary range (-a, a) and N >= 2, the points in rows x and N-1-x of a column are conjugates and get equal counts |
| `Mandelbrot.HalfSegmentInsideDisc` | mandelbrotset.py:39 | every point of the real segment [-1/2, 0] passes the escape test as inside |
| `Mandelbrot.HalfStepStaysInSegment` | mandelbrotset.py:27 | for C = -1/2 one step maps the real segment [-1/2, 0] into itself |
| `Mandelbrot.HalfOrbitBounded` | mandelbrotset.py:27 | the orbit of C = -1/2 stays in the real segment [-1/2, 0] and never leaves the disc |
| `Mandelbrot.HalfReachesLimit` | mandelbrotset.py:38-46 | the count of C = -1/2 is L for every L |
| `Mandelbrot.ThreeByThreeSamples` | mandelbrotset.py:55-59 | ranges (-2, 1) and (-1.5, 1.5) with N = 3 give -2 - 1.5i at cell [0, 0] and -0.5 at cell [1, 1] |
| `Mandelbrot.ThreeByThreeScenario` | mandelbrotset.py:38-65 | on that grid with L = 50, cell [0, 0] gets 0 and cell [1, 1] gets 50 |

## Left out

- `plot` (mandelbrotset.py:69-80) is not modelled. It only passes the grid and the range bounds to matplotlib to draw and show the image.
- `print(x, y)` (mandelbrotset.py:66) is diagnostic output and is not modelled.
- Floating point is not modelled. The model uses exact reals, so it drops the rounding inside `linspace`, the rounding of the modulus that `abs` computes with `hypot`, and with it which side of the test a point exactly at modulus 2 falls on. Overflow cannot arise for finite ranges: an update runs only after the escape test has failed, so every squared value has modulus at most 2 (`Escape.EscapeTimeIsFirstEscape`).
- Mandelbrot.MandelbrotSet.GetN: requires `iteration_lim >= 0`. With a negative limit the Python loop's range is empty and the method falls through and returns `None`; that path is not modelled.
- Mandelbrot.MandelbrotSet.ComputeSet: requires `coordinate_count >= 0`, because numpy rejects a negative sample count.
- Mandelbrot.MandelbrotSet.ComputeSet: stores integer counts in an `array2<int>`. numpy's `ndarray` default holds them as float64 values, which represent these integers exactly.
- Mandelbrot.GridConjugateSymmetry: conjugate symmetry and the scenario lemmas are stated on the sample points and `EscapeTime`, not on the array returned by `ComputeSet`. `ComputeSet`'s postcondition connects the two.
