/** The `MandelbrotSet` object: its configuration, the escape counter for
    one point and the fill of the N x N grid of escape counts. */
module Mandelbrot {
  import opened ComplexNumbers
  import opened Escape
  import opened Sampling

  /** The cells of an n x n grid in the order the nested loops visit them:
      row by row, and within a row column by column. */
  function Row(n: nat, x: nat): (cells: seq<(nat, nat)>)
  {
    seq(n, y requires 0 <= y < n => (x, y))
  }

  function RowMajorPrefix(n: nat, rows: nat): seq<(nat, nat)>
  {
    if rows == 0 then [] else RowMajorPrefix(n, rows - 1) + Row(n, rows - 1)
  }

  function RowMajor(n: nat): seq<(nat, nat)>
  {
    RowMajorPrefix(n, n)
  }

  /** The first `rows` rows of the visiting order hold each cell of those
      rows once and nothing else. */
  lemma {:induction false} RowMajorPrefixExactlyOnce(n: nat, rows: nat)
    ensures forall x: nat, y: nat :: (x, y) in RowMajorPrefix(n, rows) <==> x < rows && y < n
    ensures forall i, j :: 0 <= i < j < |RowMajorPrefix(n, rows)| ==>
      RowMajorPrefix(n, rows)[i] != RowMajorPrefix(n, rows)[j]
  {
    if rows > 0 {
      RowMajorPrefixExactlyOnce(n, rows - 1);
      var prefix := RowMajorPrefix(n, rows - 1);
      var row := Row(n, rows - 1);
      assert RowMajorPrefix(n, rows) == prefix + row;
      forall x: nat, y: nat
        ensures (x, y) in prefix + row <==> x < rows && y < n
      {
        if x == rows - 1 && y < n {
          assert row[y] == (x, y);
        }
      }
      forall i, j | 0 <= i < j < |prefix + row|
        ensures (prefix + row)[i] != (prefix + row)[j]
      {
        if i < |prefix| && j >= |prefix| {
          assert (prefix + row)[i] in prefix;
        }
      }
    }
  }

  /** The nested loops write every cell of the n x n grid exactly once. */
  lemma RowMajorExactlyOnce(n: nat)
    ensures forall x: nat, y: nat :: (x, y) in RowMajor(n) <==> x < n && y < n
    ensures forall i, j :: 0 <= i < j < |RowMajor(n)| ==> RowMajor(n)[i] != RowMajor(n)[j]
  {
    RowMajorPrefixExactlyOnce(n, n);
  }

  class MandelbrotSet {
    const realRange: (real, real)
    const imaginaryRange: (real, real)
    const iterationLim: int
    const coordinateCount: int

    /** Stores the configuration; nothing is checked. */
    constructor (realRange: (real, real), imagRange: (real, real), iterationLim: int, coordinateCount: int)
      ensures this.realRange == realRange && this.imaginaryRange == imagRange
      ensures this.iterationLim == iterationLim && this.coordinateCount == coordinateCount
    {
      this.realRange := realRange;
      this.imaginaryRange := imagRange;
      this.iterationLim := iterationLim;
      this.coordinateCount := coordinateCount;
    }

    /** The escape counter: the number of updates z := z^2 + constant done
        before |z| > 2 is seen, starting from `complexNum`; the escape test
        comes before the limit test, and the limit is the answer when no
        escape is seen among the first `iterationLim` values. */
    method GetN(constant: Complex, complexNum: Complex) returns (n: int)
      requires iterationLim >= 0
      ensures 0 <= n <= iterationLim
      ensures Escapes(complexNum) ==> n == 0
      ensures IsEscapeCount(constant, complexNum, iterationLim, n)
      ensures n == EscapeTime(constant, complexNum, iterationLim)
    {
      var z := complexNum;
      for colorVal := 1 to iterationLim + 2
        invariant colorVal <= iterationLim + 1
        invariant z == Orbit(constant, complexNum, colorVal - 1)
        invariant forall i: nat :: i < colorVal - 1 ==> !Escapes(Orbit(constant, complexNum, i))
      {
        if Escapes(z) {
          n := colorVal - 1;
          EscapeCountIff(constant, complexNum, iterationLim, n);
          return;
        } else if colorVal > iterationLim {
          n := iterationLim;
          EscapeCountIff(constant, complexNum, iterationLim, n);
          return;
        } else {
          z := IterFormula(constant, z);
        }
      }
      // The pass with colorVal == iterationLim + 1 always returns.
      assert false;
    }

    /** Allocates a fresh coordinateCount x coordinateCount grid and fills
        cell [x, y] with the escape count of its own sample point (real part
        from the real-axis sample y, imaginary part from the imaginary-axis
        sample x), writing
        the cells once each in row-major order (`writes` records the order). */
    method ComputeSet() returns (colorVals: array2<int>, ghost writes: seq<(nat, nat)>)
      requires iterationLim >= 0 && coordinateCount >= 0
      ensures fresh(colorVals)
      ensures colorVals.Length0 == coordinateCount && colorVals.Length1 == coordinateCount
      ensures forall x, y :: 0 <= x < coordinateCount && 0 <= y < coordinateCount ==>
        colorVals[x, y] == EscapeTime(SamplePoint(realRange, imaginaryRange, coordinateCount, x, y), SamplePoint(realRange, imaginaryRange, coordinateCount, x, y), iterationLim)
      ensures writes == RowMajor(coordinateCount)
    {
      var realSamples := Linspace(realRange.0, realRange.1, coordinateCount);
      var imagSamples := Linspace(imaginaryRange.0, imaginaryRange.1, coordinateCount);
      var grids := Meshgrid(realSamples, imagSamples);
      var complexNumbers := ComplexGrid(grids.0, grids.1);
      assert complexNumbers == CoordinateGrid(realRange, imaginaryRange, coordinateCount);

      colorVals := new int[coordinateCount, coordinateCount];
      writes := [];
      for x := 0 to coordinateCount
        invariant forall i, j :: 0 <= i < x && 0 <= j < coordinateCount ==>
          colorVals[i, j] == EscapeTime(SamplePoint(realRange, imaginaryRange, coordinateCount, i, j), SamplePoint(realRange, imaginaryRange, coordinateCount, i, j), iterationLim)
        invariant writes == RowMajorPrefix(coordinateCount, x)
      {
        for y := 0 to coordinateCount
          invariant forall i, j :: 0 <= i < x && 0 <= j < coordinateCount ==>
            colorVals[i, j] == EscapeTime(SamplePoint(realRange, imaginaryRange, coordinateCount, i, j), SamplePoint(realRange, imaginaryRange, coordinateCount, i, j), iterationLim)
          invariant forall j :: 0 <= j < y ==>
            colorVals[x, j] == EscapeTime(SamplePoint(realRange, imaginaryRange, coordinateCount, x, j), SamplePoint(realRange, imaginaryRange, coordinateCount, x, j), iterationLim)
          invariant writes == RowMajorPrefix(coordinateCount, x) + Row(coordinateCount, x)[..y]
        {
          CoordinateGridAt(realRange, imaginaryRange, coordinateCount, x, y);
          colorVals[x, y] := GetN(complexNumbers[x][y], complexNumbers[x][y]);
          writes := writes + [(x, y)];
        }
        assert Row(coordinateCount, x)[..coordinateCount] == Row(coordinateCount, x);
      }
    }
  }

  /** For an imaginary range symmetric about zero and at least two samples,
      the counts of rows x and N-1-x agree column by column: their sample
      points are complex conjugates. */
  lemma GridConjugateSymmetry(realRange: (real, real), imagRange: (real, real), n: nat, limit: nat, x: nat, y: nat)
    requires imagRange.0 == -imagRange.1 && n >= 2
    requires x < n && y < n
    ensures var c := SamplePoint(realRange, imagRange, n, x, y);
            var d := SamplePoint(realRange, imagRange, n, n - 1 - x, y);
            d == Conj(c) && EscapeTime(d, d, limit) == EscapeTime(c, c, limit)
  {
    LinspaceSymmetric(imagRange.0, imagRange.1, n);
    var c := SamplePoint(realRange, imagRange, n, x, y);
    var d := SamplePoint(realRange, imagRange, n, n - 1 - x, y);
    assert d == Conj(c);
    EscapeTimeConj(c, c, limit);
  }

  /** Squaring maps [-1/2, 0] into [0, 1/4]. */
  lemma SquareOnHalfSegment(t: real)
    requires -0.5 <= t <= 0.0
    ensures 0.0 <= t * t <= 0.25
  {
    assert t * t <= -0.5 * t by { assert (t + 0.5) * t <= 0.0; }
  }

  /** Every point of the real segment [-1/2, 0] is inside the disc. */
  lemma HalfSegmentInsideDisc(z: Complex)
    requires z.im == 0.0 && -0.5 <= z.re <= 0.0
    ensures !Escapes(z)
  {
    SquareOnHalfSegment(z.re);
    assert NormSq(z) == z.re * z.re;
  }

  /** One step with C = -1/2 maps the real segment [-1/2, 0] into itself. */
  lemma HalfStepStaysInSegment(z: Complex)
    requires z.im == 0.0 && -0.5 <= z.re <= 0.0
    ensures IterFormula(Complex(-0.5, 0.0), z).im == 0.0
    ensures -0.5 <= IterFormula(Complex(-0.5, 0.0), z).re <= 0.0
  {
    SquareOnHalfSegment(z.re);
    IterFormulaParts(Complex(-0.5, 0.0), z);
  }

  /** The orbit of C = -1/2 stays on the real segment [-1/2, 0], inside
      the disc. */
  lemma {:induction false} HalfOrbitBounded(k: nat)
    ensures Orbit(Complex(-0.5, 0.0), Complex(-0.5, 0.0), k).im == 0.0
    ensures -0.5 <= Orbit(Complex(-0.5, 0.0), Complex(-0.5, 0.0), k).re <= 0.0
    ensures !Escapes(Orbit(Complex(-0.5, 0.0), Complex(-0.5, 0.0), k))
  {
    var c := Complex(-0.5, 0.0);
    if k > 0 {
      HalfOrbitBounded(k - 1);
      HalfStepStaysInSegment(Orbit(c, c, k - 1));
    }
    HalfSegmentInsideDisc(Orbit(c, c, k));
  }

  /** C = -1/2 never leaves the disc, so its count is the limit. */
  lemma HalfReachesLimit(limit: nat)
    ensures EscapeTime(Complex(-0.5, 0.0), Complex(-0.5, 0.0), limit) == limit
  {
    var c := Complex(-0.5, 0.0);
    forall i: nat | i < limit
      ensures !Escapes(Orbit(c, c, i))
    {
      HalfOrbitBounded(i);
    }
    NoEarlyEscapeGivesLimit(c, c, limit);
  }

  /** Real range (-2, 1), imaginary range (-1.5, 1.5), a 3 x 3 grid: the
      samples are -2, -0.5, 1 and -1.5, 0, 1.5, so cell [0, 0] is
      -2 - 1.5i and cell [1, 1] is -0.5. */
  lemma ThreeByThreeSamples()
    ensures SamplePoint((-2.0, 1.0), (-1.5, 1.5), 3, 0, 0) == Complex(-2.0, -1.5)
    ensures SamplePoint((-2.0, 1.0), (-1.5, 1.5), 3, 1, 1) == Complex(-0.5, 0.0)
  {
    LinspaceUniform(-2.0, 1.0, 3);
    LinspaceUniform(-1.5, 1.5, 3);
    assert Step(-2.0, 1.0, 3) == 1.5;
    assert Step(-1.5, 1.5, 3) == 1.5;
  }

  /** With limit 50 on that grid, the corner -2 - 1.5i (|C| = 2.5) gets 0
      and the centre -0.5 gets the limit 50. */
  lemma ThreeByThreeScenario()
    ensures var c := SamplePoint((-2.0, 1.0), (-1.5, 1.5), 3, 0, 0);
            EscapeTime(c, c, 50) == 0
    ensures var c := SamplePoint((-2.0, 1.0), (-1.5, 1.5), 3, 1, 1);
            EscapeTime(c, c, 50) == 50
  {
    ThreeByThreeSamples();
    assert Escapes(Complex(-2.0, -1.5));
    HalfReachesLimit(50);
  }
}
