# Filter engine and signal generator, modelled in Dafny

This project models the numeric core of a small signal-processing toolkit
written in C++:

- the **filter engine** (`filter.cpp`): zero-padded, centred 1D and 2D
  convolution (`convolve_1d`, `convolve_2d`) and the two fixed-kernel
  presets, the 3-point moving average (`low_pass_filter`) and the 3x3 box
  blur (`low_pass_filter_2d`);
- the **signal generator** (`generate_signal` in `generator.cpp`): a buffer
  of `sample_rate * duration` samples of a sine, cosine, square or sawtooth
  wave.

Samples are `real` where the source has `double`. Every property below holds
exactly over the reals; in the C++ program it holds up to rounding.

Files:

- `filter.dfy` (module `Filter`): the specification functions
  `Correlate1D` and `Correlate2D`, and the methods `Convolve1D`,
  `LowPassFilter`, `Convolve2D` and `LowPassFilter2D`. The two convolutions
  fill a result buffer (`array`, `array2`) in nested loops with a running
  sum and a bounds check per tap, as the source does, and each is proved to
  return its specification function.
- `filter_properties.dfy` (module `FilterProperties`): the boundary policy,
  the kernel's orientation, worked values, the presets on constant input,
  and the 2D correlation written as a sum of 1D correlations of rows.
- `generator.dfy` (module `Generator`): `SignalType`, the per-sample value
  `ValueAt`, the specification `Waveform`, and the method `GenerateSignal`,
  which allocates the buffer and writes each slot in a loop.
- `generator_properties.dfy` (module `GeneratorProperties`): the sample
  count, slot independence, the square wave's levels and tie-break, and the
  sawtooth's range, period and first value.

Design decisions:

- The engine does not reverse the kernel. Output `i` of `convolve_1d` is
  `sum over j < k of signal[i + j - k/2] * kernel[j]`, taken over the `j`
  whose sample index is in bounds. This is a correlation centred at `k/2`.
  `CorrelateOneHot` pins the orientation down.
- `std::sin` and `std::cos` are not defined here. They reach the model as
  the two fields of a `Trig` value. Results that need a value of them
  (`sin 0 = 0`, `cos 0 = 1`) take it as a precondition. `M_PI` is the
  literal the source defines.
- The source validates nothing but the empty 1D kernel. The model keeps
  that behaviour and states what it needs of the other inputs as
  preconditions:
  - `generate_signal` converts `sample_rate * duration` to `size_t` by
    truncation toward zero. A product in `(-1, 0)` truncates to 0 and gives
    an empty signal (`NegativeFractionIsEmpty`). The model requires the
    product to be above -1, because for -1 or below the conversion is
    undefined.
  - `convolve_2d` reads row 0 of the image and of the kernel unguarded, so
    both must be non-empty. The model also requires every row to be at
    least as long as row 0 (the predicate `Grid`). This is a sufficient
    condition, not the exact one the code needs. It covers every
    rectangular matrix, and rows longer than row 0 are harmless in the
    code. The ragged inputs the code accepts beyond it are listed under
    "## Left out".
- Some behaviours of the code are easy to get wrong from a description of
  the toolkit:
  - `convolve_1d([1,2,3,4,5], [1,0,-1])` gives `[-2,-2,-2,-2,4]`. The last
    value is 4 (`WorkedExample`).
  - The sawtooth lies in `[-A, A)` for `A > 0`. The centred remainder
    `x - floor(1/2 + x)` is in `[-1/2, 1/2)`. For `A = 0` every sample
    is 0.
  - No `InvalidArgument` is raised for a non-positive `sample_rate`. No
    shape validation is done in `convolve_2d`, and a kernel with an empty
    first row yields all zeros.
  - The `Unknown signal type` branch cannot be reached for the four
    enumerators. It is an exhaustive `match` in `ValueAt`.

## Model

| member | source | states |
|---|---|---|
| Filter.Convolve1D | scikit_build_example/src/filter.cpp:10-30 | fails with `InvalidArgument("Kernel size cannot be zero")` exactly when the kernel is empty (an empty signal with a non-empty kernel succeeds); otherwise returns `Correlate1D(signal, kernel)` |
| Filter.Correlate1D | scikit_build_example/src/filter.cpp:17-29 | the output has exactly one value per input sample |
| Filter.LowPassFilter | scikit_build_example/src/filter.cpp:32-35 | is `Correlate1D` with the kernel `[1/3, 1/3, 1/3]`; the empty-kernel error cannot arise |
| Filter.Convolve2D | scikit_build_example/src/filter.cpp:37-64 | for a non-empty image and kernel whose rows are no shorter than row 0 (a sufficient condition), returns `Correlate2D(image, kernel)`; nothing is thrown |
| Filter.Correlate2D | scikit_build_example/src/filter.cpp:39-46 | the output has the image's height and every row has row 0's width |
| Filter.LowPassFilter2D | scikit_build_example/src/filter.cpp:66-73 | is `Correlate2D` with the 3x3 kernel of ninths |
| FilterProperties.TapSumIsWindowSum | scikit_build_example/src/filter.cpp:19-27 | the running sum after m taps equals the sum over the in-bounds samples reached by those taps |
| FilterProperties.CorrelateIsWindowSum | scikit_build_example/src/filter.cpp:19-27 | output i is exactly the sum of `signal[m] * kernel[m - (i - k/2)]` over the samples m in bounds under the window; out-of-range taps add nothing, with no wrap-around and no renormalisation |
| FilterProperties.OneHotTapSum | scikit_build_example/src/filter.cpp:21-26 | with a one-hot kernel the running sum picks up only the hot tap's sample, or 0 when that sample is out of bounds |
| FilterProperties.CorrelateOneHot | scikit_build_example/src/filter.cpp:22-24 | a kernel with a single 1 at p gives output i = sample `i + p - k/2` (0 outside): the kernel is not reversed |
| FilterProperties.CorrelateIdentity | scikit_build_example/src/filter.cpp:19-28 | the kernel `[1]` returns the input unchanged |
| FilterProperties.WorkedExample | scikit_build_example/src/filter.cpp:19-28 | `[1,2,3,4,5]` with `[1,0,-1]` gives `[-2,-2,-2,-2,4]` |
| FilterProperties.CorrelateEmptySignal | scikit_build_example/src/filter.cpp:17-19 | an empty signal gives an empty output |
| FilterProperties.UniformKernelOnConstant | scikit_build_example/src/filter.cpp:19-28 | a kernel `[w,w,w]` on a constant signal c gives c * w * (number of in-bounds neighbours) |
| FilterProperties.LowPassOnConstant | scikit_build_example/src/filter.cpp:32-35 | the moving average of a constant c is c at interior samples, 2c/3 at both ends (length at least 2), c/3 for a single sample |
| FilterProperties.RowTapSumIsTapSum | scikit_build_example/src/filter.cpp:52-57 | for an in-bounds image row, the taps of one kernel row sum like the 1D running sum on that image row |
| FilterProperties.RowTapSumOutside | scikit_build_example/src/filter.cpp:53-55 | a kernel row over an out-of-bounds image row adds nothing |
| FilterProperties.CellSumIsRowsSum | scikit_build_example/src/filter.cpp:51-59 | the running sum over kernel rows equals the sum of 1D correlations of the in-bounds image rows |
| FilterProperties.Correlate2DByRows | scikit_build_example/src/filter.cpp:48-60 | output cell (y, x) is the sum over kernel rows j whose image row `y + j - kh/2` is in bounds of the 1D correlation of that image row with kernel row j at column x |
| FilterProperties.ZeroWidthCellSum | scikit_build_example/src/filter.cpp:51-52 | with an empty first kernel row no tap is taken, so the running sum stays 0 |
| FilterProperties.ZeroWidthKernel | scikit_build_example/src/filter.cpp:42-52 | a kernel whose first row is empty is accepted and yields an all-zero image |
| FilterProperties.BoxBlurOnOnes | scikit_build_example/src/filter.cpp:66-73 | the box blur of an all-ones image at (y, x) is (in-bounds rows) x (in-bounds columns) / 9 |
| FilterProperties.BoxBlurOnOnesValues | scikit_build_example/src/filter.cpp:66-73 | on an all-ones image of at least 3x3: 1 inside, 6/9 on non-corner border cells, 4/9 at the corners |
| Generator.SampleCount | scikit_build_example/src/generator.cpp:15 | the length is `sample_rate * duration` truncated toward zero: 0 for a product in `(-1, 0)`, otherwise its floor (`n <= product < n + 1`) |
| Generator.ValueAt | scikit_build_example/src/generator.cpp:20-35 | a square sample is +A or -A, and with amplitude 0 every waveform is 0 |
| Generator.Waveform | scikit_build_example/src/generator.cpp:15-21 | the signal has `SampleCount` samples |
| Generator.GenerateSignal | scikit_build_example/src/generator.cpp:14-37 | returns `Waveform`: `SampleCount` samples, slot i holding the waveform's value at `t = i / sample_rate` |
| GeneratorProperties.SampleCountMonotone | scikit_build_example/src/generator.cpp:15 | a larger `sample_rate * duration` never gives fewer samples, negative fractions included |
| GeneratorProperties.NegativeFractionIsEmpty | scikit_build_example/src/generator.cpp:15-16 | 8 Hz for -0.1 s (product -0.8) gives an empty signal, not an error |
| GeneratorProperties.WaveformPrefix | scikit_build_example/src/generator.cpp:18-19 | at the same rate, a signal with more samples begins with the shorter one: each slot depends on its own index alone, never on the buffer length |
| GeneratorProperties.LongerDurationExtends | scikit_build_example/src/generator.cpp:15-21 | a longer duration at the same rate gives at least as many samples and keeps every earlier sample unchanged |
| GeneratorProperties.SampleIsValueAtTime | scikit_build_example/src/generator.cpp:18-19 | sample i is the value at time `i / sample_rate`, and a non-empty signal implies a non-zero rate |
| GeneratorProperties.SquareLevels | scikit_build_example/src/generator.cpp:28 | a square sample is +A or -A; it is +A when `sin(2 pi f t + phase) >= 0`, zero included, and for A != 0 only then |
| GeneratorProperties.SquareFollowsSine | scikit_build_example/src/generator.cpp:22-28 | for A > 0 the square wave is +A exactly where the sine wave of the same argument is non-negative and -A exactly where it is negative |
| GeneratorProperties.RampIsCentredRemainder | scikit_build_example/src/generator.cpp:31 | the sawtooth ramp `2 (x - floor(1/2 + x))` equals `2 (x - k)` for the integer k with `x - k` in `[-1/2, 1/2)` |
| GeneratorProperties.RampRange | scikit_build_example/src/generator.cpp:31 | the ramp lies in `[-1, 1)` |
| GeneratorProperties.RampPeriodic | scikit_build_example/src/generator.cpp:31 | the ramp has period 1 |
| GeneratorProperties.SawtoothRange | scikit_build_example/src/generator.cpp:31 | a sawtooth sample is in `[-A, A)` for A > 0, is 0 for A = 0, and is at most abs(A) in size |
| GeneratorProperties.FirstSample | scikit_build_example/src/generator.cpp:18-31 | sample 0 is `A sin(phase)`, `A cos(phase)`, +A for the square wave when `sin(phase) >= 0`, and exactly 0 for the sawtooth |
| GeneratorProperties.DefaultsFirstSample | scikit_build_example/src/generator.hpp:15 | with the default amplitude 1 and phase 0 (and sin 0 = 0, cos 0 = 1), sine starts at 0, cosine at 1 and square at +1 |
| GeneratorProperties.SquareEightSamples | scikit_build_example/src/generator.cpp:14-28 | a 1 Hz square wave at 8 Hz for 1 s has 8 samples, each +1 or -1, the first +1 |

## Left out

- `fourier.cpp` (`dft`, `idft`, `plot_dft`) is not part of this model. It
  is built on complex exponentials. Its round trip holds only within a
  floating-point tolerance and rests on trigonometric identities.
- Plotting is rendering I/O and is not modelled: `plot_image`,
  `plot_line`, `plot_signal`.
- `bindings.cpp` (the Python binding glue) and `build/Debug/test.py` (a
  plotting driver) are not part of this model.
- IEEE-754 rounding is not modelled. `1.0/3` and `1.0/9` are the exact
  fractions, and sums are exact.
- Integer widths are not modelled:
  - `static_cast<int>` of the vector sizes in `convolve_1d` and
    `convolve_2d` could overflow for sizes beyond `INT_MAX`.
  - `static_cast<size_t>` in `generate_signal` is undefined for a product
    beyond the range of `size_t`.
  - The model's indices and lengths are unbounded.
- Filter.Convolve2D: requires `Grid` of both matrices, which is stronger
  than what the code reads. The code also accepts some ragged inputs and
  the model does not cover them:
  - With an empty kernel row 0 no image cell is read at all, so an image
    such as `[[1,2],[3]]` gives `[[0,0],[0,0]]`.
  - Kernel rows too far from the centre to reach an image row are never
    read, so they may be shorter. For example, `[[1],[1],[1],[1],[]]` on
    `[[5]]` gives `[[5]]`.
- Generator.GenerateSignal: a product `sample_rate * duration` of -1 or
  below is excluded, because its conversion to `size_t` is undefined.
- Generator.GenerateSignal: sine and cosine are taken as given functions,
  so nothing is proved that needs a trigonometric identity.
  - No periodicity of the sine, cosine or square waves is proved.
  - The sign pattern of the square wave after sample 0 is not proved.
