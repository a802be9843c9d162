/** The coordinate grid: evenly spaced samples along each axis (numpy's
    `linspace`), their outer product (`meshgrid` with its default "xy"
    indexing) and the complex grid `real_grid + imag_grid * 1j`. */
module Sampling {
  import opened ComplexNumbers

  /** The spacing between consecutive samples when there are at least two. */
  function Step(start: real, stop: real, num: nat): real
    requires num >= 2
  {
    (stop - start) / ((num - 1) as real)
  }

  /** `num` samples from `start` to `stop`, computed as numpy does: sample i
      is `start + i * step`, and with more than one sample the last one is
      set to `stop` itself; a single sample is `start`. */
  function Linspace(start: real, stop: real, num: nat): (r: seq<real>)
    ensures |r| == num
  {
    seq(num, i requires 0 <= i < num =>
      if num > 1 then
        (if i == num - 1 then stop else start + (i as real) * Step(start, stop, num))
      else
        start + (i as real) * (stop - start))
  }

  /** The last sample, set to `stop`, lies on the same line as the others. */
  lemma StepReachesStop(start: real, stop: real, num: nat)
    requires num >= 2
    ensures start + ((num - 1) as real) * Step(start, stop, num) == stop
  {
  }

  /** The first sample is `start`; with at least two samples every sample is
      `start + i * step`, consecutive samples are `step` apart and the last
      one is `stop`; a single sample is `start` alone. */
  lemma LinspaceUniform(start: real, stop: real, num: nat)
    ensures num >= 1 ==> Linspace(start, stop, num)[0] == start
    ensures num == 1 ==> Linspace(start, stop, num) == [start]
    ensures num >= 2 ==> Linspace(start, stop, num)[num - 1] == stop
    ensures num >= 2 ==> forall i :: 0 <= i < num ==>
      Linspace(start, stop, num)[i] == start + (i as real) * Step(start, stop, num)
    ensures num >= 2 ==> forall i :: 0 <= i < num - 1 ==>
      Linspace(start, stop, num)[i + 1] - Linspace(start, stop, num)[i] == Step(start, stop, num)
  {
  }

  /** With `start <= stop` the samples never decrease. */
  lemma LinspaceMonotone(start: real, stop: real, num: nat)
    requires start <= stop
    ensures forall i, j :: 0 <= i <= j < num ==> Linspace(start, stop, num)[i] <= Linspace(start, stop, num)[j]
  {
    LinspaceUniform(start, stop, num);
    if num >= 2 {
      var s := Step(start, stop, num);
      assert s >= 0.0;
      forall i, j | 0 <= i <= j < num
        ensures Linspace(start, stop, num)[i] <= Linspace(start, stop, num)[j]
      {
        assert Linspace(start, stop, num)[i] == start + (i as real) * s;
        assert Linspace(start, stop, num)[j] == start + (j as real) * s;
        assert (j as real) * s - (i as real) * s == ((j - i) as real) * s;
        assert ((j - i) as real) * s >= 0.0;
      }
    }
  }

  /** With at least two samples, samples of a range symmetric about zero
      (start == -stop) are symmetric: sample j, the i-th from the end
      (i + j == num - 1), is the negation of sample i. A single sample is
      `start` alone and has no mirror image. */
  lemma LinspaceSymmetric(start: real, stop: real, num: nat)
    requires start == -stop && num >= 2
    ensures forall i, j :: 0 <= i < num && 0 <= j < num && i + j == num - 1 ==>
      Linspace(start, stop, num)[j] == -Linspace(start, stop, num)[i]
  {
    LinspaceUniform(start, stop, num);
    var s := Step(start, stop, num);
    StepReachesStop(start, stop, num);
    forall i, j | 0 <= i < num && 0 <= j < num && i + j == num - 1
      ensures Linspace(start, stop, num)[j] == -Linspace(start, stop, num)[i]
    {
      assert Linspace(start, stop, num)[i] == start + (i as real) * s;
      assert Linspace(start, stop, num)[j] == start + (j as real) * s;
      assert (j as real) * s == ((num - 1) as real) * s - (i as real) * s;
    }
  }

  /** numpy's `meshgrid(xs, ys)`: two grids of |ys| rows and |xs| columns;
      every row of the first is `xs`, every entry of row i of the second is
      `ys[i]`. */
  function Meshgrid(xs: seq<real>, ys: seq<real>): (grids: (seq<seq<real>>, seq<seq<real>>))
    ensures |grids.0| == |grids.1| == |ys|
    ensures forall i :: 0 <= i < |ys| ==> |grids.0[i]| == |grids.1[i]| == |xs|
  {
    (seq(|ys|, _ => xs),
     seq(|ys|, i requires 0 <= i < |ys| => seq(|xs|, _ => ys[i])))
  }

  /** `real_grid + imag_grid * 1j`, entry by entry. */
  function ComplexGrid(realGrid: seq<seq<real>>, imagGrid: seq<seq<real>>): (grid: seq<seq<Complex>>)
    requires |realGrid| == |imagGrid|
    requires forall i :: 0 <= i < |realGrid| ==> |realGrid[i]| == |imagGrid[i]|
    ensures |grid| == |realGrid|
    ensures forall i :: 0 <= i < |grid| ==> |grid[i]| == |realGrid[i]|
  {
    seq(|realGrid|, i requires 0 <= i < |realGrid| =>
      seq(|realGrid[i]|, j requires 0 <= j < |realGrid[i]| =>
        Add(FromReal(realGrid[i][j]), Mul(FromReal(imagGrid[i][j]), ImagUnit))))
  }

  /** The complex coordinate grid built from `n` samples of each range. */
  function CoordinateGrid(realRange: (real, real), imagRange: (real, real), n: nat): (grid: seq<seq<Complex>>)
    ensures |grid| == n
    ensures forall x :: 0 <= x < n ==> |grid[x]| == n
  {
    var realSamples := Linspace(realRange.0, realRange.1, n);
    var imagSamples := Linspace(imagRange.0, imagRange.1, n);
    var grids := Meshgrid(realSamples, imagSamples);
    ComplexGrid(grids.0, grids.1)
  }

  /** The point at row x and column y: real part from the real-axis sample y,
      imaginary part from the imaginary-axis sample x. */
  function SamplePoint(realRange: (real, real), imagRange: (real, real), n: nat, x: nat, y: nat): Complex
    requires x < n && y < n
  {
    Complex(Linspace(realRange.0, realRange.1, n)[y], Linspace(imagRange.0, imagRange.1, n)[x])
  }

  /** Entry [x][y] of the coordinate grid is `real[y] + imaginary[x] * i`. */
  lemma CoordinateGridAt(realRange: (real, real), imagRange: (real, real), n: nat, x: nat, y: nat)
    requires x < n && y < n
    ensures CoordinateGrid(realRange, imagRange, n)[x][y] == SamplePoint(realRange, imagRange, n, x, y)
  {
  }
}
