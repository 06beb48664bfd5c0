/** Properties of the filter engine's specification functions: the boundary
    policy, the orientation of the kernel, worked values, the presets on
    constant inputs, and how the 2D correlation is built from 1D ones. */
module FilterProperties {
  import opened Filter

  function Min(a: int, b: int): int { if a <= b then a else b }
  function Max(a: int, b: int): int { if a <= b then b else a }

  /* ---------------------------------------------------------------------- */
  /* Boundary policy                                                         */
  /* ---------------------------------------------------------------------- */

  /** Reference sum over the signal samples lo .. hi-1 that lie under a kernel
      placed with its tap 0 on sample off: sample m meets tap m - off. */
  function WindowSum(signal: seq<real>, kernel: seq<real>, off: int, lo: int, hi: int): real
    requires 0 <= lo && off <= lo && hi <= |signal| && hi - off <= |kernel|
    decreases hi - lo
  {
    if hi <= lo then 0.0
    else WindowSum(signal, kernel, off, lo, hi - 1) + signal[hi - 1] * kernel[hi - 1 - off]
  }

  lemma {:induction false} TapSumIsWindowSum(signal: seq<real>, kernel: seq<real>, i: int, m: nat)
    requires 0 <= i < |signal| && m <= |kernel|
    ensures var off := i - |kernel| / 2;
            TapSum(signal, kernel, i, m)
            == WindowSum(signal, kernel, off, Max(0, off), Max(Max(0, off), Min(|signal|, off + m)))
  {
    if m > 0 {
      TapSumIsWindowSum(signal, kernel, i, m - 1);
      var off, n := i - |kernel| / 2, |signal|;
      var lo, idx := Max(0, off), off + m - 1;
      if 0 <= idx < n {
        assert Max(lo, Min(n, off + m - 1)) == idx;
        assert Max(lo, Min(n, off + m)) == idx + 1;
      }
    }
  }

  /** Output i sums exactly the samples that lie under the kernel window:
      taps that fall before sample 0 or after the last sample add nothing,
      and nothing is wrapped around or rescaled. */
  lemma CorrelateIsWindowSum(signal: seq<real>, kernel: seq<real>, i: int)
    requires 0 <= i < |signal|
    ensures var off := i - |kernel| / 2;
            Correlate1D(signal, kernel)[i]
            == WindowSum(signal, kernel, off, Max(0, off), Min(|signal|, off + |kernel|))
  {
    TapSumIsWindowSum(signal, kernel, i, |kernel|);
  }

  /* ---------------------------------------------------------------------- */
  /* Orientation: the kernel is not reversed                                 */
  /* ---------------------------------------------------------------------- */

  /** Sample idx of the signal, or 0 outside it. */
  function Padded(signal: seq<real>, idx: int): real
  {
    if 0 <= idx < |signal| then signal[idx] else 0.0
  }

  /** A kernel of length k that is 1 at position p and 0 elsewhere. */
  function OneHot(k: nat, p: nat): (r: seq<real>)
    requires p < k
    ensures |r| == k && r[p] == 1.0
  {
    seq(k, j requires 0 <= j < k => if j == p then 1.0 else 0.0)
  }

  lemma {:induction false} OneHotTapSum(signal: seq<real>, k: nat, p: nat, i: int, m: nat)
    requires p < k && m <= k
    ensures TapSum(signal, OneHot(k, p), i, m) == if p < m then Padded(signal, i + p - k / 2) else 0.0
  {
    if m > 0 {
      OneHotTapSum(signal, k, p, i, m - 1);
    }
  }

  /** A kernel with a single 1 at position p reads sample i + p - k/2 for
      output i: tap j looks forward by j - k/2, so the kernel acts as written,
      not mirrored. */
  lemma CorrelateOneHot(signal: seq<real>, k: nat, p: nat, i: int)
    requires p < k && 0 <= i < |signal|
    ensures Correlate1D(signal, OneHot(k, p))[i] == Padded(signal, i + p - k / 2)
  {
    OneHotTapSum(signal, k, p, i, k);
  }

  /** The kernel [1] leaves the signal unchanged. */
  lemma CorrelateIdentity(signal: seq<real>)
    ensures Correlate1D(signal, [1.0]) == signal
  {
    assert OneHot(1, 0) == [1.0];
    forall i | 0 <= i < |signal| ensures Correlate1D(signal, [1.0])[i] == signal[i] {
      CorrelateOneHot(signal, 1, 0, i);
    }
  }

  /** The worked case [1,2,3,4,5] with [1,0,-1]: the last output keeps the
      in-bounds tap 4 * 1 and drops the tap past the end. */
  lemma WorkedExample()
    ensures Correlate1D([1.0, 2.0, 3.0, 4.0, 5.0], [1.0, 0.0, -1.0]) == [-2.0, -2.0, -2.0, -2.0, 4.0]
  {
    var s, k := [1.0, 2.0, 3.0, 4.0, 5.0], [1.0, 0.0, -1.0];
    var r := Correlate1D(s, k);
    forall i | 0 <= i < 5 ensures r[i] == [-2.0, -2.0, -2.0, -2.0, 4.0][i] {
      assert TapSum(s, k, i, 1) == Tap(s, k, i, 0);
      assert TapSum(s, k, i, 3) == Tap(s, k, i, 0) + Tap(s, k, i, 1) + Tap(s, k, i, 2);
    }
  }

  /** An empty signal with any kernel gives an empty output. */
  lemma CorrelateEmptySignal(kernel: seq<real>)
    ensures Correlate1D([], kernel) == []
  {
  }

  /* ---------------------------------------------------------------------- */
  /* Presets on constant input                                               */
  /* ---------------------------------------------------------------------- */

  function Constant(n: nat, c: real): (r: seq<real>)
    ensures |r| == n
  {
    seq(n, _ => c)
  }

  /** How many of the positions i-1, i, i+1 lie in 0 .. n-1 (for 0 <= i < n). */
  function Neighbours(i: int, n: int): nat
  {
    (if i > 0 then 1 else 0) + 1 + (if i + 1 < n then 1 else 0)
  }

  /** A 3-tap uniform kernel [w, w, w] on a constant signal c gives c * w
      times the number of in-bounds taps. */
  lemma UniformKernelOnConstant(n: nat, c: real, w: real, i: int)
    requires 0 <= i < n
    ensures Correlate1D(Constant(n, c), [w, w, w])[i] == c * w * (Neighbours(i, n) as real)
  {
    var s, k := Constant(n, c), [w, w, w];
    assert TapSum(s, k, i, 1) == Tap(s, k, i, 0);
    assert TapSum(s, k, i, 3) == Tap(s, k, i, 0) + Tap(s, k, i, 1) + Tap(s, k, i, 2);
  }

  /** The moving average of a constant signal c: c at interior samples,
      2c/3 at the first and last sample, c/3 for a single sample. */
  lemma LowPassOnConstant(n: nat, c: real, i: int)
    requires 0 <= i < n
    ensures var r := Correlate1D(Constant(n, c), LowPassKernel);
            (0 < i < n - 1 ==> r[i] == c)
            && (n >= 2 && (i == 0 || i == n - 1) ==> r[i] == 2.0 * c / 3.0)
            && (n == 1 ==> r[i] == c / 3.0)
  {
    UniformKernelOnConstant(n, c, 1.0 / 3.0, i);
  }

  /* ---------------------------------------------------------------------- */
  /* 2D in terms of 1D                                                       */
  /* ---------------------------------------------------------------------- */

  /** Reference: the sum over the first m kernel rows of the 1D correlation of
      the image row under kernel row j (cut to the image's and kernel's
      widths) at column x, for the rows that lie inside the image. */
  function RowsSum(image: seq<seq<real>>, kernel: seq<seq<real>>, y: int, x: int, m: nat): real
    requires Grid(image) && Grid(kernel)
    requires m <= |kernel| && 0 <= x < |image[0]|
  {
    if m == 0 then 0.0
    else
      var yy := y + (m - 1) - |kernel| / 2;
      RowsSum(image, kernel, y, x, m - 1)
      + (if 0 <= yy < |image|
         then Correlate1D(image[yy][..|image[0]|], kernel[m - 1][..|kernel[0]|])[x]
         else 0.0)
  }

  lemma {:induction false} RowTapSumIsTapSum(image: seq<seq<real>>, kernel: seq<seq<real>>,
                                               y: int, x: int, j: nat, m: nat)
    requires Grid(image) && Grid(kernel)
    requires j < |kernel| && m <= |kernel[0]|
    requires 0 <= y + j - |kernel| / 2 < |image|
    ensures var yy := y + j - |kernel| / 2;
            RowTapSum(image, kernel, y, x, j, m)
            == TapSum(image[yy][..|image[0]|], kernel[j][..|kernel[0]|], x, m)
  {
    if m > 0 {
      RowTapSumIsTapSum(image, kernel, y, x, j, m - 1);
    }
  }

  lemma {:induction false} RowTapSumOutside(image: seq<seq<real>>, kernel: seq<seq<real>>,
                                              y: int, x: int, j: nat, m: nat)
    requires Grid(image) && Grid(kernel)
    requires j < |kernel| && m <= |kernel[0]|
    requires !(0 <= y + j - |kernel| / 2 < |image|)
    ensures RowTapSum(image, kernel, y, x, j, m) == 0.0
  {
    if m > 0 {
      RowTapSumOutside(image, kernel, y, x, j, m - 1);
    }
  }

  lemma {:induction false} CellSumIsRowsSum(image: seq<seq<real>>, kernel: seq<seq<real>>,
                                              y: int, x: int, m: nat)
    requires Grid(image) && Grid(kernel)
    requires m <= |kernel| && 0 <= x < |image[0]|
    ensures CellSum(image, kernel, y, x, m) == RowsSum(image, kernel, y, x, m)
  {
    if m > 0 {
      CellSumIsRowsSum(image, kernel, y, x, m - 1);
      var yy := y + (m - 1) - |kernel| / 2;
      if 0 <= yy < |image| {
        RowTapSumIsTapSum(image, kernel, y, x, m - 1, |kernel[0]|);
      } else {
        RowTapSumOutside(image, kernel, y, x, m - 1, |kernel[0]|);
      }
    }
  }

  /** Output cell (y, x) of the 2D correlation is the sum, over the kernel
      rows whose image row is in bounds, of the 1D correlation of that image
      row with that kernel row at column x: rows out of bounds add nothing. */
  lemma Correlate2DByRows(image: seq<seq<real>>, kernel: seq<seq<real>>, y: int, x: int)
    requires Grid(image) && Grid(kernel)
    requires 0 <= y < |image| && 0 <= x < |image[0]|
    ensures Correlate2D(image, kernel)[y][x] == RowsSum(image, kernel, y, x, |kernel|)
  {
    CellSumIsRowsSum(image, kernel, y, x, |kernel|);
  }

  lemma {:induction false} ZeroWidthCellSum(image: seq<seq<real>>, kernel: seq<seq<real>>,
                                              y: int, x: int, m: nat)
    requires Grid(image) && Grid(kernel) && |kernel[0]| == 0
    requires m <= |kernel|
    ensures CellSum(image, kernel, y, x, m) == 0.0
  {
    if m > 0 {
      ZeroWidthCellSum(image, kernel, y, x, m - 1);
    }
  }

  /** A kernel whose first row is empty is accepted and yields all zeros. */
  lemma ZeroWidthKernel(image: seq<seq<real>>, kernel: seq<seq<real>>)
    requires Grid(image) && Grid(kernel) && |kernel[0]| == 0
    ensures forall y, x :: 0 <= y < |image| && 0 <= x < |image[0]| ==>
      Correlate2D(image, kernel)[y][x] == 0.0
  {
    forall y, x | 0 <= y < |image| && 0 <= x < |image[0]|
      ensures Correlate2D(image, kernel)[y][x] == 0.0
    {
      ZeroWidthCellSum(image, kernel, y, x, |kernel|);
    }
  }

  /** The all-ones image of h rows and w columns. */
  function Ones(h: nat, w: nat): (r: seq<seq<real>>)
    ensures |r| == h && forall y :: 0 <= y < h ==> r[y] == Constant(w, 1.0)
  {
    seq(h, _ => Constant(w, 1.0))
  }

  /** The box blur of the all-ones image at (y, x) is the number of in-bounds
      cells of the 3x3 neighbourhood, divided by 9. */
  lemma BoxBlurOnOnes(h: nat, w: nat, y: int, x: int)
    requires 0 <= y < h && 0 <= x < w
    ensures Correlate2D(Ones(h, w), BoxKernel)[y][x]
            == (Neighbours(y, h) * Neighbours(x, w)) as real / 9.0
  {
    var image := Ones(h, w);
    var n := Neighbours(x, w) as real;
    Correlate2DByRows(image, BoxKernel, y, x);
    forall j | 0 <= j < 3 && 0 <= y + j - 1 < h
      ensures Correlate1D(image[y + j - 1][..w], BoxKernel[j][..3])[x] == n / 9.0
    {
      assert image[y + j - 1][..w] == Constant(w, 1.0);
      assert BoxKernel[j][..3] == [1.0 / 9.0, 1.0 / 9.0, 1.0 / 9.0];
      UniformKernelOnConstant(w, 1.0, 1.0 / 9.0, x);
    }
    var above := if y > 0 then n / 9.0 else 0.0;
    var below := if y + 1 < h then n / 9.0 else 0.0;
    assert RowsSum(image, BoxKernel, y, x, 1) == above;
    assert RowsSum(image, BoxKernel, y, x, 2) == above + n / 9.0;
    assert RowsSum(image, BoxKernel, y, x, 3) == above + n / 9.0 + below;
  }

  /** On an all-ones image of at least 3x3: 1 inside, 6/9 on a border cell
      that is not a corner, 4/9 at the four corners. */
  lemma BoxBlurOnOnesValues(h: nat, w: nat, y: int, x: int)
    requires h >= 3 && w >= 3 && 0 <= y < h && 0 <= x < w
    ensures var r := Correlate2D(Ones(h, w), BoxKernel);
            var rowEdge := y == 0 || y == h - 1;
            var colEdge := x == 0 || x == w - 1;
            (!rowEdge && !colEdge ==> r[y][x] == 1.0)
            && (rowEdge != colEdge ==> r[y][x] == 6.0 / 9.0)
            && (rowEdge && colEdge ==> r[y][x] == 4.0 / 9.0)
  {
    BoxBlurOnOnes(h, w, y, x);
  }
}
