/** The filter engine: zero-padded, centred 1D and 2D convolution over real
    samples, and the two fixed-kernel presets (3-point moving average and
    3x3 box blur).

    The engine does not reverse the kernel, so what it computes is a
    correlation centred at |kernel| / 2.  Taps that fall outside the input are
    skipped: no wrap-around and no renormalisation. */
module Filter {

  datatype Error = InvalidArgument(message: string)

  datatype Result<T> = Success(value: T) | Failure(error: Error)

  const KernelSizeZero: string := "Kernel size cannot be zero"

  /* ---------------------------------------------------------------------- */
  /* 1D                                                                      */
  /* ---------------------------------------------------------------------- */

  /** Contribution of kernel tap j to output i: the sample i + j - |kernel|/2
      times kernel[j] when that sample exists, and nothing otherwise. */
  function Tap(signal: seq<real>, kernel: seq<real>, i: int, j: nat): real
    requires j < |kernel|
  {
    var idx := i + j - |kernel| / 2;
    if 0 <= idx < |signal| then signal[idx] * kernel[j] else 0.0
  }

  /** The sum of the first m taps for output i, in loop order. */
  function TapSum(signal: seq<real>, kernel: seq<real>, i: int, m: nat): real
    requires m <= |kernel|
  {
    if m == 0 then 0.0 else TapSum(signal, kernel, i, m - 1) + Tap(signal, kernel, i, m - 1)
  }

  /** What convolve_1d returns for a non-empty kernel: one output per input
      sample, each the sum over all kernel taps. */
  function Correlate1D(signal: seq<real>, kernel: seq<real>): (r: seq<real>)
    ensures |r| == |signal|
  {
    seq(|signal|, i requires 0 <= i < |signal| => TapSum(signal, kernel, i, |kernel|))
  }

  /** convolve_1d: rejects an empty kernel; otherwise fills a result buffer of
      the signal's length, one running sum per output. */
  method Convolve1D(signal: seq<real>, kernel: seq<real>) returns (r: Result<seq<real>>)
    ensures r.Failure? <==> |kernel| == 0
    ensures r.Failure? ==> r.error == InvalidArgument(KernelSizeZero)
    ensures r.Success? ==> r.value == Correlate1D(signal, kernel)
  {
    var n := |signal|;
    var k := |kernel|;
    var halfK := k / 2;
    if k == 0 {
      return Failure(InvalidArgument(KernelSizeZero));
    }
    var result := new real[n](_ => 0.0);
    for i := 0 to n
      invariant forall p :: 0 <= p < i ==> result[p] == TapSum(signal, kernel, p, k)
    {
      var sum := 0.0;
      for j := 0 to k
        invariant sum == TapSum(signal, kernel, i, j)
      {
        var idx := i + j - halfK;
        if 0 <= idx < n {
          sum := sum + signal[idx] * kernel[j];
        }
      }
      result[i] := sum;
    }
    return Success(result[..]);
  }

  const LowPassKernel: seq<real> := [1.0 / 3.0, 1.0 / 3.0, 1.0 / 3.0]

  /** low_pass_filter: the 3-point moving average, via Convolve1D. */
  method LowPassFilter(signal: seq<real>) returns (r: seq<real>)
    ensures r == Correlate1D(signal, LowPassKernel)
  {
    var res := Convolve1D(signal, LowPassKernel);
    r := res.value;
  }

  /* ---------------------------------------------------------------------- */
  /* 2D                                                                      */
  /* ---------------------------------------------------------------------- */

  /** What convolve_2d needs of a matrix: row 0 exists, and no row is shorter
      than row 0 (every row is indexed up to row 0's length).  A rectangular
      non-empty matrix meets it. */
  predicate Grid(m: seq<seq<real>>)
  {
    |m| > 0 && forall y :: 0 <= y < |m| ==> |m[0]| <= |m[y]|
  }

  /** Contribution of kernel cell (j, i) to output cell (y, x). */
  function Tap2(image: seq<seq<real>>, kernel: seq<seq<real>>, y: int, x: int, j: nat, i: nat): real
    requires Grid(image) && Grid(kernel)
    requires j < |kernel| && i < |kernel[0]|
  {
    var yy := y + j - |kernel| / 2;
    var xx := x + i - |kernel[0]| / 2;
    if 0 <= yy < |image| && 0 <= xx < |image[0]| then image[yy][xx] * kernel[j][i] else 0.0
  }

  /** The sum of the first m taps of kernel row j for output cell (y, x). */
  function RowTapSum(image: seq<seq<real>>, kernel: seq<seq<real>>, y: int, x: int, j: nat, m: nat): real
    requires Grid(image) && Grid(kernel)
    requires j < |kernel| && m <= |kernel[0]|
  {
    if m == 0 then 0.0
    else RowTapSum(image, kernel, y, x, j, m - 1) + Tap2(image, kernel, y, x, j, m - 1)
  }

  /** The sum over the first m kernel rows, each over its full width. */
  function CellSum(image: seq<seq<real>>, kernel: seq<seq<real>>, y: int, x: int, m: nat): real
    requires Grid(image) && Grid(kernel)
    requires m <= |kernel|
  {
    if m == 0 then 0.0
    else CellSum(image, kernel, y, x, m - 1) + RowTapSum(image, kernel, y, x, m - 1, |kernel[0]|)
  }

  /** What convolve_2d returns: a matrix of the image's height whose rows all
      have row 0's width. */
  function Correlate2D(image: seq<seq<real>>, kernel: seq<seq<real>>): (r: seq<seq<real>>)
    requires Grid(image) && Grid(kernel)
    ensures |r| == |image|
    ensures forall y :: 0 <= y < |r| ==> |r[y]| == |image[0]|
  {
    seq(|image|, y requires 0 <= y < |image| =>
      seq(|image[0]|, x requires 0 <= x < |image[0]| => CellSum(image, kernel, y, x, |kernel|)))
  }

  /** convolve_2d: fills a height x width buffer, one running sum per cell over
      all kernel cells whose image cell is in bounds.  Nothing is validated. */
  method Convolve2D(image: seq<seq<real>>, kernel: seq<seq<real>>) returns (r: seq<seq<real>>)
    requires Grid(image) && Grid(kernel)
    ensures r == Correlate2D(image, kernel)
  {
    var height := |image|;
    var width := |image[0]|;
    var kh := |kernel|;
    var kw := |kernel[0]|;
    var kh2 := kh / 2;
    var kw2 := kw / 2;
    var result := new real[height, width]((_, _) => 0.0);
    for y := 0 to height
      invariant forall p, q :: 0 <= p < y && 0 <= q < width ==>
        result[p, q] == CellSum(image, kernel, p, q, kh)
    {
      for x := 0 to width
        invariant forall p, q :: 0 <= p < y && 0 <= q < width ==>
          result[p, q] == CellSum(image, kernel, p, q, kh)
        invariant forall q :: 0 <= q < x ==> result[y, q] == CellSum(image, kernel, y, q, kh)
      {
        var sum := 0.0;
        for j := 0 to kh
          invariant sum == CellSum(image, kernel, y, x, j)
        {
          ghost var before := sum;
          for i := 0 to kw
            invariant sum == before + RowTapSum(image, kernel, y, x, j, i)
          {
            var yy := y + j - kh2;
            var xx := x + i - kw2;
            if 0 <= yy < height && 0 <= xx < width {
              sum := sum + image[yy][xx] * kernel[j][i];
            }
          }
        }
        result[y, x] := sum;
      }
    }
    r := seq(height, y requires 0 <= y < height reads result =>
      seq(width, x requires 0 <= x < width reads result => result[y, x]));
    ghost var spec := Correlate2D(image, kernel);
    forall y | 0 <= y < height ensures r[y] == spec[y] {
      assert forall x :: 0 <= x < width ==> r[y][x] == spec[y][x];
    }
  }

  const BoxKernel: seq<seq<real>> :=
    [[1.0 / 9.0, 1.0 / 9.0, 1.0 / 9.0],
     [1.0 / 9.0, 1.0 / 9.0, 1.0 / 9.0],
     [1.0 / 9.0, 1.0 / 9.0, 1.0 / 9.0]]

  /** low_pass_filter_2d: the 3x3 box blur, via Convolve2D. */
  method LowPassFilter2D(image: seq<seq<real>>) returns (r: seq<seq<real>>)
    requires Grid(image)
    ensures r == Correlate2D(image, BoxKernel)
  {
    r := Convolve2D(image, BoxKernel);
  }
}
