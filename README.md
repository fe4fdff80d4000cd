# Signal-processing visualizers: convolution engine and time transformation

This project models the computational core of two interactive widgets from an
educational signals-and-systems website and proves properties about them in Dafny.

**Convolution widget** (`convolution.dfy`, module `Convolution`). It works on a
grid of `N` points (`TotalPoints = 200` in the widget):
- `GenerateSignal` fills a zeroed array with a centred rectangular or
  triangular pulse. The pulse has width `floor(N/4)` and starts at
  `floor((N - width)/2)`.
- `Convolve` computes the linear (zero-padded) convolution of two such arrays
  with the widget's direct double loop. It divides every value by the display
  `ScalingFactor` of 20.
- For one integer slider position `t`, `FlipShift` builds two traces on the
  centred grid `tau = i - N/2`:
  - the flipped and shifted impulse `h(t - tau)`, with a bounds-checked read;
  - its pointwise product with `x(tau)`.
- `OutputSeries`, `DomainSeries` and `CombinedSeries` build the chart series.
- `ComputeTraces` runs the whole computation for one slider position.

The central theorem is `SliceAreaIsOutput`. The plotted output point at
abscissa `t` equals the area under the product trace for shift `t`, divided
by the scaling factor. This is the "flip, shift, multiply, sum" reading of
convolution that the widget illustrates. `RectRectIsTriangle` proves in
closed form that two rectangular pulses convolve to a discrete triangle.

**Time-transformation widget** (`time_transformation.dfy`, module
`TimeTransformation`):
- `OriginalSignal` is the unit triangle.
- `TransformedArgument` is the argument `scale*t - shift`, negated when
  reversal is ticked.
- `TransformationText` builds the caption `x(...)` piece by piece.

The caption is also modelled structurally as a `Label`. `Render` turns a
`Label` into text, and `Denotes` gives the affine map the text reads as. This
lets the caption be compared with the argument that is actually plotted.

`common.dfy` (module `Common`) holds `Option` (JavaScript's `undefined` in a
chart point) and `Abs`.

All numbers are exact `real`s: the model is the exact-real idealisation of the
widgets' double-precision arithmetic (see "## Left out"). The modelling choices:
- `Math.round` is written out as `floor(r + 0.5)`. `ShiftedIndex` proves that
  on the centred grid it always yields the integer index `t - i + N`.
- JavaScript's number-to-string conversion is a parameter `show: real -> string`
  of the caption functions.

## Model

| member | source | states |
|---|---|---|
| `Convolution.PulseFits` | src/components/ConvolutionVisualizer.tsx:12-16 | every write index `start + i` with `i < width` lies below `N`; the pulse is centred (the gap after it equals the gap before it or exceeds it by one) |
| `Convolution.GenerateSignal` | src/components/ConvolutionVisualizer.tsx:10-25 | the returned array is new, has exactly `totalPoints` entries and equals `Signal`: the pulse value at offset `j - start` inside `[start, start + width)`, 0 elsewhere |
| `Convolution.SignalZeroOutsidePulse` | src/components/ConvolutionVisualizer.tsx:11-16 | every entry outside `[start, start + width)` is 0 |
| `Convolution.RectPulseIsOne` | src/components/ConvolutionVisualizer.tsx:17-18 | a rectangular pulse is exactly 1 at every index of its support |
| `Convolution.TrianglePulseBounds` | src/components/ConvolutionVisualizer.tsx:19-22 | every triangle entry `1 - abs(i - w/2)/(w/2)` lies in `[0, 1]` |
| `Convolution.TriangleEndsAndPeak` | src/components/ConvolutionVisualizer.tsx:19-22 | for every width `w >= 1` the triangle's first entry is 0; for even `w` the entry at `w/2` is the peak 1 |
| `Convolution.TriangleSymmetric` | src/components/ConvolutionVisualizer.tsx:19-22 | offsets `i` and `w - i` of the triangle carry equal values |
| `Convolution.SignalInUnitRange` | src/components/ConvolutionVisualizer.tsx:10-24 | every generated signal, of either shape, takes values in `[0, 1]` |
| `Convolution.Convolve` | src/components/ConvolutionVisualizer.tsx:47-56 | the result is a new array; it has `2N - 1` entries, and entry `n` is the sum over `k < N` of `x[k]*h[n-k]`, restricted to `0 <= n-k < N`, divided by 20; `h` is never read outside `[0, N)` |
| `Convolution.ConvSumOfZeroTerms` | src/components/ConvolutionVisualizer.tsx:49-54 | a convolution sum whose every term is skipped or zero is 0 |
| `Convolution.ConvolutionSupport` | src/components/ConvolutionVisualizer.tsx:44-56 | the convolution of two generated pulses is 0 outside `[2*start, 2*(start + width - 1)]` |
| `Convolution.RectRectIsTriangle` | src/components/ConvolutionVisualizer.tsx:44-56 | before display scaling, two rectangular pulses convolve to `max(0, w - abs(n - (2*start + w - 1)))`, a discrete triangle peaking at `w` |
| `Convolution.Round` | src/components/ConvolutionVisualizer.tsx:64 | the result is the nearest integer to its argument, with halves rounded up: `r - 1/2 < n <= r + 1/2` |
| `Convolution.ShiftedIndex` | src/components/ConvolutionVisualizer.tsx:62-64 | with `tau = i - N/2`, `Math.round(t - tau + N/2)` is exactly `t - i + N` for integer `t` |
| `Convolution.ImpulseIndex` | src/components/ConvolutionVisualizer.tsx:62-64 | the index computed through `tau`, `argumentForH` and `Math.round` is the integer `t - i + N` |
| `Convolution.FlipShift` | src/components/ConvolutionVisualizer.tsx:58-73 | both traces are new, distinct arrays; entry `i` of the flipped trace is `h[t - i + N]` when that index is in `[0, N)` and 0 otherwise; the product trace is `x[i]` times the flipped trace, pointwise |
| `Convolution.FlippedImpulseShifts` | src/components/ConvolutionVisualizer.tsx:61-71 | moving the slider from `t` to `t + 1` moves the flipped impulse one grid point to the right |
| `Convolution.NoOverlapZeroProduct` | src/components/ConvolutionVisualizer.tsx:61-72 | when the flipped impulse misses the input pulse (`t < 2*start - N` or `t > 2*(start + width - 1) - N`), every product entry is 0 |
| `Convolution.ProductPrefixIsConvSum` | src/components/ConvolutionVisualizer.tsx:47-73 | summing the product trace term by term gives the unscaled convolution sum at index `t + N` |
| `Convolution.SliceAreaIsOutput` | src/components/ConvolutionVisualizer.tsx:79-82 | for `-N <= t < N`, the output point at abscissa `t` equals the area under the product trace for shift `t`, divided by 20; this includes the final point, which has no convolution value and reads 0 |
| `Convolution.DomainSeries` | src/components/ConvolutionVisualizer.tsx:75-77 | a trace is plotted on a grid starting at `-N/2` with spacing 1, keeping its values |
| `Convolution.OutputSeries` | src/components/ConvolutionVisualizer.tsx:79-82 | `2N` points at `x = i - N`, each carrying the convolution value; the final point reads 0 |
| `Convolution.CenteredRead` | src/components/ConvolutionVisualizer.tsx:86-87 | the guarded read at abscissa `x` is defined exactly when `x` is a grid abscissa `k - N/2` with `0 <= k < N`, and then yields entry `k` |
| `Convolution.CenteredReadAtInteger` | src/components/ConvolutionVisualizer.tsx:86-87 | for even `N`, the overlaid input and impulse are defined exactly for `x` in `[-N/2, N/2)` and equal the array at `x + N/2`; for odd `N` they are never defined |
| `Convolution.CombinedSeries` | src/components/ConvolutionVisualizer.tsx:84-94 | the combined series keeps each output point's abscissa and value |
| `Convolution.CombinedSeriesOverlay` | src/components/ConvolutionVisualizer.tsx:84-94 | at output index `i` (abscissa `i - N`), for even `N`, `input` and `impulse` are defined exactly for `N/2 <= i < 3N/2`, that is `x` in `[-N/2, N/2)`, and equal the arrays at `i - N/2 = x + N/2`; for odd `N` they are never defined |
| `Convolution.ComputeTraces` | src/components/ConvolutionVisualizer.tsx:43-102 | the five series for slider position `t` on the 200-point grid; the output point at `x = t` equals the area under the product trace divided by 20 |
| `TimeTransformation.OriginalSignal` | src/components/TimeTransformationVisualizer.tsx:11-15 | values lie in `[0, 1]` and are 0 for `t < -1` or `t > 1`; the value is `1 - abs(t)` on `[-1, 1]` |
| `TimeTransformation.OriginalSignalIsEven` | src/components/TimeTransformationVisualizer.tsx:12-14 | `x(-t) = x(t)` for every `t` |
| `TimeTransformation.OriginalSignalPeak` | src/components/TimeTransformationVisualizer.tsx:12-13 | the value is 1 if and only if `t = 0` |
| `TimeTransformation.OriginalSignalSupport` | src/components/TimeTransformationVisualizer.tsx:12-14 | the value is non-zero if and only if `-1 < t < 1` |
| `TimeTransformation.TransformedArgument` | src/components/TimeTransformationVisualizer.tsx:22-23 | the argument has the magnitude of `scale*t - shift` and equals it exactly when reversal is off (or the value is 0) |
| `TimeTransformation.TransformedValue` | src/components/TimeTransformationVisualizer.tsx:26 | the plotted value lies in `[0, 1]` and is 0 whenever `scale*t - shift` is outside `[-1, 1]`, reversed or not |
| `TimeTransformation.IdentityTransform` | src/components/TimeTransformationVisualizer.tsx:22-27 | with scale 1, shift 0 and no reversal, the argument is `t` and the transformed value equals the original |
| `TimeTransformation.ReversalNegatesArgument` | src/components/TimeTransformationVisualizer.tsx:22-23 | reversal negates the whole scaled-and-shifted argument, giving `shift - scale*t` |
| `TimeTransformation.ReversalInvisible` | src/components/TimeTransformationVisualizer.tsx:22-26 | because the triangle is even, the reversal switch never changes the plotted transformed value |
| `TimeTransformation.ShiftDelays` | src/components/TimeTransformationVisualizer.tsx:22-26 | with scale 1 and no reversal, the transformed curve is the original delayed by the shift |
| `TimeTransformation.TransformedSupport` | src/components/TimeTransformationVisualizer.tsx:22-26 | for a positive scale `a` and shift `b`, the transformed value is non-zero if and only if `(b - 1)/a < t < (b + 1)/a`, with or without reversal |
| `TimeTransformation.LabelOf` | src/components/TimeTransformationVisualizer.tsx:41-46 | the caption is negated exactly when reversal is on; the scale is omitted exactly when it is 1; the shift part is omitted exactly for shift 0, and otherwise carries the positive magnitude with the sign that gives back the shift |
| `TimeTransformation.Render` | src/components/TimeTransformationVisualizer.tsx:40-47 | every caption starts with `x(`, contains `t` and ends with `)` |
| `TimeTransformation.TransformationText` | src/components/TimeTransformationVisualizer.tsx:39-49 | the caption built by successive appends equals the rendering of the caption parts chosen from the slider values |
| `TimeTransformation.TextPrefix` | src/components/TimeTransformationVisualizer.tsx:41-43 | a `-` follows `x(` if and only if reversal is on; `t` follows directly when the scale is 1, otherwise the rendered scale comes first |
| `TimeTransformation.TextSuffix` | src/components/TimeTransformationVisualizer.tsx:44-47 | a zero shift leaves the caption ending in `t)`; a positive shift `s` ends it with ` - s)`; a negative one ends it with ` + abs(s))` |
| `TimeTransformation.LabelDenotesArgumentUnreversed` | src/components/TimeTransformationVisualizer.tsx:22-46 | without reversal, the caption reads as exactly the argument at which the curve is evaluated |
| `TimeTransformation.LabelDisagreesUnderReversal` | src/components/TimeTransformationVisualizer.tsx:22-46 | with reversal, the caption's map `-a*t - b` equals the plotted argument `-(a*t - b)` if and only if the shift is 0 |
| `TimeTransformation.LabelCounterexample` | src/components/TimeTransformationVisualizer.tsx:22-46 | scale 1, shift 1, reversed, at `t = 1`: the caption predicts 0, the curve shows 1 |
| `TimeTransformation.LabelDenotesReversedFirst` | src/components/TimeTransformationVisualizer.tsx:39-49 | the printed caption denotes `a*(-t) - b` under reversal and `a*t - b` otherwise: time reversed first, then scaled and shifted |
| `TimeTransformation.ReversedFirstChangesCurve` | src/components/TimeTransformationVisualizer.tsx:22-23 | if reversal were applied to `t` before scaling and shifting, the switch would change the curve: scale 1, shift 1, `t = 1` gives 1 unreversed and 0 reversed |
| `TimeTransformation.CorrectedLabelOf` | src/components/TimeTransformationVisualizer.tsx:39-49 | a caption whose map equals the plotted argument at every `t`; it agrees with the widget's caption whenever reversal is off |

## Left out

- JSX markup, the recharts charts, React state and hooks, and event handlers are presentation and are not modelled. The slider value `t` is a parameter of `FlipShift` and `ComputeTraces`. It is an integer because the range input has the default step of 1.
- Floating point is not modelled: the model computes on exact reals. Only the index arithmetic (including the integral argument of `Math.round`) and the rectangle sums before the division by 20 are exact in the widget. The model does not capture the double-precision rounding of the triangle values (such as `1 - 24/25`), of the products and partial sums, or of the display division by 20 (`1/20` is not a double).
- The sampling loop of the time-transformation widget (`t += 0.1` from -3 to 5) and its `toFixed`/`parseFloat` rounding are left out. They are float accumulation and display formatting. The model keeps the argument map and the value plotted at any sample time.
- JavaScript's number-to-string conversion is not modelled. It is the parameter `show`.
- TextPrefix: requires that the rendered scale does not begin with `-`. The scale slider's range is 0.5 to 3, and a positive number's rendering carries no sign.
- Convolve: requires `N >= 1`, because `Array(2N - 1)` throws for `N = 0`. The widget only calls it with `N = 200`.
- The module-level `domain` array is not a separate value. Its entries `i - N/2` are computed inline where the source reads them.
- The other visualizers, the chat assistant, the chat API route, the math-rendering wrapper and the static pages are not part of this model. They are trigonometric and exponential floating-point sampling, network I/O, or markup.

## Findings

| source | as written | input that shows it | evidently intended | confidence | as-written member | corrected member |
|---|---|---|---|---|---|---|
| src/components/TimeTransformationVisualizer.tsx:41-46 | With reversal on, the caption is `x(-at - b)`, but the curve is evaluated at `-(a*t - b) = -a*t + b` (line 23). | scale 1, shift 1, reversed: the caption reads `x(-t - 1)`, which is 0 at `t = 1`, while the plotted value at `t = 1` is `x(0) = 1` | the caption and the plot agree; one of two readings: either the caption prints the shift with the opposite sign under reversal (`x(-at + b)`, this row's corrected member), or the plot reverses `t` before scaling and shifting (next row) | medium, not executed | `TimeTransformation.LabelDisagreesUnderReversal` | `TimeTransformation.CorrectedLabelOf` |
| src/components/TimeTransformationVisualizer.tsx:22-23 | Reversal negates the whole argument `a*t - b`; since the triangle is even, the "Time Reverse" switch never changes the plotted curve. | any slider values and any `t`: the reversed and unreversed values are equal, e.g. scale 1, shift 1, `t = 1` gives 1 both ways | the switch mirrors the signal as its caption `x(-at - b)` says: reverse `t` first, then scale and shift, which the printed caption denotes exactly and which changes the curve | medium, not executed | `TimeTransformation.ReversalInvisible` | `TimeTransformation.ReversedFirstChangesCurve` |
