/**
 * The discrete convolution widget: two centred pulses (rectangle or triangle)
 * on a grid of N points, their linear convolution by direct double summation
 * (divided by a display scaling factor), and, for one integer shift t, the
 * flipped-and-shifted impulse h(t - tau) and its pointwise product with x(tau)
 * on the centred grid tau = i - N/2.
 */
module Convolution {
  import opened Common

  datatype SignalShape = Rect | Triangle

  /** Resolution of the widget's grid. */
  const TotalPoints: nat := 200

  /** Display divisor applied to every convolution value; not part of the mathematics. */
  const ScalingFactor: real := 20.0

  // ---------------------------------------------------------------------------
  // Pulse generation
  // ---------------------------------------------------------------------------

  function PulseWidth(totalPoints: nat): nat
  {
    totalPoints / 4
  }

  function PulseStart(totalPoints: nat): nat
  {
    (totalPoints - PulseWidth(totalPoints)) / 2
  }

  /** The pulse fits the grid and is centred: the gaps on its two sides differ by at most one. */
  lemma PulseFits(totalPoints: nat)
    ensures PulseStart(totalPoints) + PulseWidth(totalPoints) <= totalPoints
    ensures var gapAfter := totalPoints - PulseStart(totalPoints) - PulseWidth(totalPoints);
      gapAfter == PulseStart(totalPoints) || gapAfter == PulseStart(totalPoints) + 1
  {
  }

  /** Value written at offset i of a pulse of the given width. */
  function PulseValue(shape: SignalShape, width: nat, i: int): real
    requires 0 <= i < width
  {
    match shape
    case Rect => 1.0
    case Triangle =>
      var halfWidth := width as real / 2.0;
      1.0 - Abs(i as real - halfWidth) / halfWidth
  }

  /** Entry j of the generated signal: the pulse inside [start, start + width), zero elsewhere. */
  function SignalAt(shape: SignalShape, totalPoints: nat, j: int): real
  {
    var width, start := PulseWidth(totalPoints), PulseStart(totalPoints);
    if start <= j < start + width then PulseValue(shape, width, j - start) else 0.0
  }

  /** The whole generated signal. */
  function Signal(shape: SignalShape, totalPoints: nat): seq<real>
  {
    seq(totalPoints, j => SignalAt(shape, totalPoints, j))
  }

  /** Fills a zeroed array of totalPoints entries with the centred pulse. */
  method GenerateSignal(shape: SignalShape, totalPoints: nat) returns (signal: array<real>)
    ensures fresh(signal)
    ensures signal.Length == totalPoints
    ensures signal[..] == Signal(shape, totalPoints)
  {
    signal := new real[totalPoints](_ => 0.0);
    var pulseWidth := totalPoints / 4;
    var start := (totalPoints - pulseWidth) / 2;
    PulseFits(totalPoints);
    for i := 0 to pulseWidth
      invariant forall j :: 0 <= j < totalPoints ==>
        signal[j] == if start <= j < start + i then PulseValue(shape, pulseWidth, j - start) else 0.0
    {
      var index := start + i;
      if shape == Rect {
        signal[index] := 1.0;
      } else {
        var halfWidth := pulseWidth as real / 2.0;
        signal[index] := 1.0 - Abs(i as real - halfWidth) / halfWidth;
      }
    }
    assert forall j :: 0 <= j < totalPoints ==> signal[..][j] == Signal(shape, totalPoints)[j];
  }

  /** Every entry outside [start, start + width) is zero. */
  lemma SignalZeroOutsidePulse(shape: SignalShape, totalPoints: nat, j: int)
    requires 0 <= j < totalPoints
    requires j < PulseStart(totalPoints) || PulseStart(totalPoints) + PulseWidth(totalPoints) <= j
    ensures Signal(shape, totalPoints)[j] == 0.0
  {
  }

  /** A rectangular pulse is exactly 1 on its support. */
  lemma RectPulseIsOne(totalPoints: nat, j: int)
    requires PulseStart(totalPoints) <= j < PulseStart(totalPoints) + PulseWidth(totalPoints)
    ensures j < totalPoints && Signal(Rect, totalPoints)[j] == 1.0
  {
    PulseFits(totalPoints);
  }

  lemma DivBounds(a: real, b: real)
    requires 0.0 <= a <= b && 0.0 < b
    ensures 0.0 <= a / b <= 1.0
  {
    assert (a / b) * b == a;
  }

  /** Triangle pulse entries lie in [0, 1]. */
  lemma {:induction false} TrianglePulseBounds(width: nat, i: int)
    requires 0 <= i < width
    ensures 0.0 <= PulseValue(Triangle, width, i) <= 1.0
  {
    var halfWidth := width as real / 2.0;
    DivBounds(Abs(i as real - halfWidth), halfWidth);
  }

  /** The first triangle entry is 0, and for an even width the middle entry is the peak 1. */
  lemma {:induction false} TriangleEndsAndPeak(width: nat)
    requires 0 < width
    ensures PulseValue(Triangle, width, 0) == 0.0
    ensures width % 2 == 0 ==> PulseValue(Triangle, width, width / 2) == 1.0
  {
    var halfWidth := width as real / 2.0;
    assert Abs(0 as real - halfWidth) == halfWidth;
    assert halfWidth / halfWidth == 1.0;
    if width % 2 == 0 {
      assert (width / 2) as real == halfWidth;
      assert Abs((width / 2) as real - halfWidth) == 0.0;
      assert 0.0 / halfWidth == 0.0;
    }
  }

  /** The triangle entries at offsets i and width - i agree. */
  lemma {:induction false} TriangleSymmetric(width: nat, i: int)
    requires 0 < i < width
    ensures PulseValue(Triangle, width, width - i) == PulseValue(Triangle, width, i)
  {
    var halfWidth := width as real / 2.0;
    assert Abs((width - i) as real - halfWidth) == Abs(i as real - halfWidth);
  }

  /** Every generated signal takes values in [0, 1]. */
  lemma {:induction false} SignalInUnitRange(shape: SignalShape, totalPoints: nat, j: int)
    requires 0 <= j < totalPoints
    ensures 0.0 <= Signal(shape, totalPoints)[j] <= 1.0
  {
    var width, start := PulseWidth(totalPoints), PulseStart(totalPoints);
    if shape == Triangle && start <= j < start + width {
      TrianglePulseBounds(width, j - start);
    }
  }

  // ---------------------------------------------------------------------------
  // Linear convolution
  // ---------------------------------------------------------------------------

  /** Term k of y[n]: x[k] * h[n - k] when n - k indexes h, nothing otherwise. */
  function Term(x: seq<real>, h: seq<real>, n: int, k: int): real
    requires 0 <= k < |x|
  {
    if 0 <= n - k < |h| then x[k] * h[n - k] else 0.0
  }

  /** The sum of the first k terms of y[n]. */
  function ConvSum(x: seq<real>, h: seq<real>, n: int, k: nat): real
    requires k <= |x|
  {
    if k == 0 then 0.0 else ConvSum(x, h, n, k - 1) + Term(x, h, n, k - 1)
  }

  /** The linear (zero-padded) convolution of two sequences of equal length N: 2N - 1 values. */
  function LinearConvolution(x: seq<real>, h: seq<real>): seq<real>
    requires |x| == |h| >= 1
  {
    seq(2 * |x| - 1, n => ConvSum(x, h, n, |x|))
  }

  /** The display step: every value divided by the scaling factor. */
  function DisplayScaled(y: seq<real>): seq<real>
  {
    seq(|y|, n requires 0 <= n < |y| => y[n] / ScalingFactor)
  }

  /** Direct double loop over output index n and input index k. */
  method Convolve(x: array<real>, h: array<real>) returns (y: array<real>)
    requires x.Length == h.Length >= 1
    ensures fresh(y)
    ensures y.Length == 2 * x.Length - 1
    ensures y[..] == DisplayScaled(LinearConvolution(x[..], h[..]))
  {
    var totalPoints := x.Length;
    y := new real[totalPoints * 2 - 1](_ => 0.0);
    for n := 0 to totalPoints * 2 - 1
      invariant forall j :: 0 <= j < n ==> y[j] == ConvSum(x[..], h[..], j, totalPoints) / ScalingFactor
    {
      var sum := 0.0;
      for k := 0 to totalPoints
        invariant sum == ConvSum(x[..], h[..], n, k)
      {
        if n - k >= 0 && n - k < totalPoints {
          sum := sum + x[k] * h[n - k];
        }
      }
      y[n] := sum / ScalingFactor;
    }
    assert forall j :: 0 <= j < y.Length ==>
      y[..][j] == DisplayScaled(LinearConvolution(x[..], h[..]))[j];
  }

  /** A partial sum whose every term vanishes is zero. */
  lemma {:induction false} ConvSumOfZeroTerms(x: seq<real>, h: seq<real>, n: int, k: nat)
    requires k <= |x|
    requires forall j :: 0 <= j < k ==> Term(x, h, n, j) == 0.0
    ensures ConvSum(x, h, n, k) == 0.0
  {
    if k > 0 {
      ConvSumOfZeroTerms(x, h, n, k - 1);
    }
  }

  /**
   * The convolution of two generated pulses vanishes outside the sum of their
   * supports, [2*start, 2*(start + width - 1)].
   */
  lemma {:induction false} ConvolutionSupport(xShape: SignalShape, hShape: SignalShape, totalPoints: nat, n: int)
    requires n < 2 * PulseStart(totalPoints) || 2 * (PulseStart(totalPoints) + PulseWidth(totalPoints) - 1) < n
    ensures ConvSum(Signal(xShape, totalPoints), Signal(hShape, totalPoints), n, totalPoints) == 0.0
  {
    var x, h := Signal(xShape, totalPoints), Signal(hShape, totalPoints);
    forall j | 0 <= j < totalPoints
      ensures Term(x, h, n, j) == 0.0
    {
      if 0 <= n - j < totalPoints {
        assert x[j] == 0.0 || h[n - j] == 0.0;
      }
    }
    ConvSumOfZeroTerms(x, h, n, totalPoints);
  }

  /** The number of k < bound that lie in [lo, hi]. */
  function CountIn(lo: int, hi: int, bound: int): int
  {
    var top := if bound < hi + 1 then bound else hi + 1;
    if top - lo < 0 then 0 else top - lo
  }

  lemma {:induction false} RectRectPrefix(totalPoints: nat, n: int, k: nat)
    requires k <= totalPoints
    ensures var width, start := PulseWidth(totalPoints), PulseStart(totalPoints);
      var lo := if start < n - start - width + 1 then n - start - width + 1 else start;
      var hi := if start + width - 1 < n - start then start + width - 1 else n - start;
      ConvSum(Signal(Rect, totalPoints), Signal(Rect, totalPoints), n, k) == CountIn(lo, hi, k) as real
  {
    PulseFits(totalPoints);
    if k > 0 {
      RectRectPrefix(totalPoints, n, k - 1);
    }
  }

  /**
   * Two rectangular pulses of width w convolve to a discrete triangle: before
   * display scaling, y[n] = max(0, w - |n - (2*start + w - 1)|), peaking at w.
   */
  lemma {:induction false} RectRectIsTriangle(totalPoints: nat, n: int)
    ensures var width, start := PulseWidth(totalPoints), PulseStart(totalPoints);
      var d := n - (2 * start + width - 1);
      var dist := if d < 0 then -d else d;
      ConvSum(Signal(Rect, totalPoints), Signal(Rect, totalPoints), n, totalPoints)
        == (if width - dist < 0 then 0 else width - dist) as real
  {
    PulseFits(totalPoints);
    RectRectPrefix(totalPoints, n, totalPoints);
  }

  // ---------------------------------------------------------------------------
  // One step of the flip-and-shift picture
  // ---------------------------------------------------------------------------

  /** `Math.round`: nearest integer, halves rounded up. */
  function Round(r: real): (n: int)
    ensures r - 0.5 < n as real <= r + 0.5
  {
    (r + 0.5).Floor
  }

  /** h read at index j, with zero substituted outside [0, |h|). */
  function ImpulseAt(h: seq<real>, j: int): real
  {
    if 0 <= j < |h| then h[j] else 0.0
  }

  /** The trace h(t - tau) on the centred grid: entry i reads h at t - i + N. */
  function FlippedImpulse(h: seq<real>, t: int): seq<real>
  {
    seq(|h|, i => ImpulseAt(h, t - i + |h|))
  }

  /** The pointwise product of two traces. */
  function Pointwise(x: seq<real>, g: seq<real>): seq<real>
    requires |x| == |g|
  {
    seq(|x|, i requires 0 <= i < |x| => x[i] * g[i])
  }

  /** On the centred grid tau = i - N/2, rounding t - tau + N/2 always lands on t - i + N. */
  lemma ShiftedIndex(totalPoints: nat, t: int, i: int)
    ensures Round((t as real - (i as real - totalPoints as real / 2.0)) + totalPoints as real / 2.0)
         == t - i + totalPoints
  {
    var r := (t as real - (i as real - totalPoints as real / 2.0)) + totalPoints as real / 2.0;
    assert r + 0.5 == (t - i + totalPoints) as real + 0.5;
  }

  /** The index into h read at grid position i for shift t: `Math.round(t - domain[i] + N/2)`. */
  function ImpulseIndex(totalPoints: nat, t: int, i: int): (index: int)
    ensures index == t - i + totalPoints
  {
    var tau := i as real - totalPoints as real / 2.0;
    var argumentForH := t as real - tau;
    ShiftedIndex(totalPoints, t, i);
    Round(argumentForH + totalPoints as real / 2.0)
  }

  /** Moving the slider one step right moves the flipped impulse one grid point right. */
  lemma FlippedImpulseShifts(h: seq<real>, t: int, i: int)
    requires 0 <= i < |h| - 1
    ensures FlippedImpulse(h, t + 1)[i + 1] == FlippedImpulse(h, t)[i]
  {
  }

  /** Builds h(t - tau) and x(tau) * h(t - tau) on the centred grid, guarding every read of h. */
  method FlipShift(x: array<real>, h: array<real>, t: int) returns (flipped: array<real>, product: array<real>)
    requires x.Length == h.Length
    ensures fresh(flipped) && fresh(product) && flipped != product
    ensures flipped.Length == product.Length == x.Length
    ensures flipped[..] == FlippedImpulse(h[..], t)
    ensures product[..] == Pointwise(x[..], flipped[..])
  {
    var totalPoints := x.Length;
    ghost var xs, hs := x[..], h[..];
    ghost var expectedFlipped := FlippedImpulse(hs, t);
    ghost var expectedProduct := Pointwise(xs, expectedFlipped);
    flipped := new real[totalPoints](_ => 0.0);
    product := new real[totalPoints](_ => 0.0);
    for i := 0 to totalPoints
      invariant x[..] == xs && h[..] == hs
      invariant forall j :: 0 <= j < i ==> flipped[j] == expectedFlipped[j]
      invariant forall j :: 0 <= j < i ==> product[j] == expectedProduct[j]
    {
      var impulseIndex := ImpulseIndex(totalPoints, t, i);
      var impulseValue := 0.0;
      if impulseIndex >= 0 && impulseIndex < totalPoints {
        impulseValue := h[impulseIndex];
      }
      assert expectedFlipped[i] == ImpulseAt(hs, impulseIndex);
      assert impulseValue == expectedFlipped[i];
      flipped[i] := impulseValue;
      product[i] := x[i] * flipped[i];
    }
    assert forall j :: 0 <= j < totalPoints ==> flipped[..][j] == expectedFlipped[j];
    assert forall j :: 0 <= j < totalPoints ==> product[..][j] == expectedProduct[j];
    assert flipped[..] == expectedFlipped;
  }

  /**
   * When the flipped impulse does not meet the input pulse, that is
   * t < 2*start - N or t > 2*(start + width - 1) - N, the product trace is all zero.
   */
  lemma {:induction false} NoOverlapZeroProduct(xShape: SignalShape, hShape: SignalShape, totalPoints: nat, t: int, i: int)
    requires 0 <= i < totalPoints
    requires var width, start := PulseWidth(totalPoints), PulseStart(totalPoints);
      t < 2 * start - totalPoints || 2 * (start + width - 1) - totalPoints < t
    ensures Pointwise(Signal(xShape, totalPoints), FlippedImpulse(Signal(hShape, totalPoints), t))[i] == 0.0
  {
    var x, h := Signal(xShape, totalPoints), Signal(hShape, totalPoints);
    assert x[i] == 0.0 || ImpulseAt(h, t - i + totalPoints) == 0.0;
  }

  /** The sum of the first k entries of a trace. */
  function SumTo(s: seq<real>, k: nat): real
    requires k <= |s|
  {
    if k == 0 then 0.0 else SumTo(s, k - 1) + s[k - 1]
  }

  /** The area under a trace on the unit-spaced grid. */
  function Area(s: seq<real>): real
  {
    SumTo(s, |s|)
  }

  /** Summing the product trace term by term gives the convolution sum at n = t + N. */
  lemma {:induction false} ProductPrefixIsConvSum(x: seq<real>, h: seq<real>, t: int, k: nat)
    requires |x| == |h| && k <= |x|
    ensures SumTo(Pointwise(x, FlippedImpulse(h, t)), k) == ConvSum(x, h, t + |x|, k)
  {
    if k > 0 {
      ProductPrefixIsConvSum(x, h, t, k - 1);
      var flipped := FlippedImpulse(h, t);
      assert Pointwise(x, flipped)[k - 1] == x[k - 1] * ImpulseAt(h, t - (k - 1) + |x|);
    }
  }

  // ---------------------------------------------------------------------------
  // Chart series
  // ---------------------------------------------------------------------------

  datatype Point = Point(x: real, y: real)

  datatype CombinedPoint = CombinedPoint(x: real, output: real, input: Option<real>, impulse: Option<real>)

  /** Abscissa of grid index k on the centred grid of n points. */
  function GridPoint(n: nat, k: int): real
  {
    k as real - n as real / 2.0
  }

  /** A trace paired with the centred grid tau = i - N/2. */
  function DomainSeries(s: seq<real>): (r: seq<Point>)
    ensures |r| == |s|
    ensures forall i :: 0 <= i < |r| ==> r[i].y == s[i]
    ensures |r| > 0 ==> r[0].x == -(|s| as real) / 2.0
    ensures forall i :: 0 <= i < |r| - 1 ==> r[i + 1].x == r[i].x + 1.0
  {
    seq(|s|, i requires 0 <= i < |s| => Point(GridPoint(|s|, i), s[i]))
  }

  /**
   * 2N output points at x = i - N; the point past the last convolution value
   * reads 0 (`undefined || 0`).
   */
  function OutputSeries(y: seq<real>, totalPoints: nat): (r: seq<Point>)
    ensures |r| == 2 * totalPoints
    ensures forall i :: 0 <= i < |r| ==> r[i].x == (i - totalPoints) as real
    ensures forall i :: 0 <= i < |r| ==> r[i].y == if i < |y| then y[i] else 0.0
  {
    seq(2 * totalPoints, i => Point((i - totalPoints) as real, if 0 <= i < |y| then y[i] else 0.0))
  }

  /**
   * A centred array read at abscissa x, guarded by x in [-N/2, N/2): it is
   * defined exactly at the grid abscissae and then yields the entry plotted there.
   */
  function CenteredRead(s: seq<real>, x: real): (r: Option<real>)
    ensures r.Some? <==> exists k :: 0 <= k < |s| && GridPoint(|s|, k) == x
    ensures forall k :: 0 <= k < |s| && GridPoint(|s|, k) == x ==> r == Some(s[k])
  {
    var half := |s| as real / 2.0;
    var index := x + half;
    if -half <= x < half && index == index.Floor as real then
      assert GridPoint(|s|, index.Floor) == x;
      Some(s[index.Floor])
    else
      assert forall k :: 0 <= k < |s| ==> GridPoint(|s|, k) + half == k as real;
      None
  }

  /** For an integer abscissa the read is defined exactly on [-N/2, N/2) when N is even, never when N is odd. */
  lemma CenteredReadAtInteger(s: seq<real>, x: int)
    ensures |s| % 2 == 0 ==>
      CenteredRead(s, x as real) == if -(|s| / 2) <= x < |s| / 2 then Some(s[x + |s| / 2]) else None
    ensures |s| % 2 == 1 ==> CenteredRead(s, x as real) == None
  {
    var half := |s| as real / 2.0;
    var index := x as real + half;
    if |s| % 2 == 0 {
      assert half == (|s| / 2) as real;
      assert index == (x + |s| / 2) as real;
    } else {
      assert half == (|s| / 2) as real + 0.5;
      assert index == (x + |s| / 2) as real + 0.5;
      assert index.Floor == x + |s| / 2;
    }
  }

  /** The output series with the input and flipped impulse overlaid where the centred grid covers x. */
  function CombinedSeries(output: seq<Point>, input: seq<real>, flipped: seq<real>): (r: seq<CombinedPoint>)
    ensures |r| == |output|
    ensures forall i :: 0 <= i < |r| ==> r[i].x == output[i].x && r[i].output == output[i].y
  {
    seq(|output|, i requires 0 <= i < |output| => CombinedPoint(output[i].x, output[i].y,
                                     CenteredRead(input, output[i].x),
                                     CenteredRead(flipped, output[i].x)))
  }

  /**
   * In the combined series over the output abscissae x = i - N, the input and
   * the flipped impulse are defined exactly for x in [-N/2, N/2) when N is even,
   * and there equal the arrays at x + N/2; for odd N they are never defined.
   */
  lemma {:induction false} CombinedSeriesOverlay(y: seq<real>, input: seq<real>, flipped: seq<real>, i: int)
    requires |input| == |flipped| && 0 <= i < 2 * |input|
    ensures var n := |input|;
      var point := CombinedSeries(OutputSeries(y, n), input, flipped)[i];
      && (n % 2 == 0 ==> point.input == (if n / 2 <= i < 3 * n / 2 then Some(input[i - n / 2]) else None))
      && (n % 2 == 0 ==> point.impulse == (if n / 2 <= i < 3 * n / 2 then Some(flipped[i - n / 2]) else None))
      && (n % 2 == 1 ==> point.input == None && point.impulse == None)
  {
    var n := |input|;
    CenteredReadAtInteger(input, i - n);
    CenteredReadAtInteger(flipped, i - n);
  }

  /** Everything the widget plots for one slider position. */
  datatype Traces = Traces(
    inputSignalData: seq<Point>,
    shiftedFlippedImpulseData: seq<Point>,
    productData: seq<Point>,
    outputSignalData: seq<Point>,
    combinedData: seq<CombinedPoint>)

  /** The output point at abscissa t is the area under the product trace for shift t, scaled for display. */
  lemma {:induction false} SliceAreaIsOutput(x: seq<real>, h: seq<real>, t: int)
    requires |x| == |h| >= 1
    requires -|x| <= t < |x|
    ensures var output := OutputSeries(DisplayScaled(LinearConvolution(x, h)), |x|);
      output[t + |x|].x == t as real
      && output[t + |x|].y == Area(Pointwise(x, FlippedImpulse(h, t))) / ScalingFactor
  {
    var n := |x|;
    ProductPrefixIsConvSum(x, h, t, n);
    if t == n - 1 {
      var last := t + n;
      forall j | 0 <= j < n
        ensures Term(x, h, last, j) == 0.0
      {
      }
      ConvSumOfZeroTerms(x, h, last, n);
    }
  }

  /** The whole computation for slider position t on the 200-point grid. */
  method ComputeTraces(t: int, inputShape: SignalShape, impulseShape: SignalShape) returns (traces: Traces)
    ensures var x, h := Signal(inputShape, TotalPoints), Signal(impulseShape, TotalPoints);
      var flipped := FlippedImpulse(h, t);
      var product := Pointwise(x, flipped);
      var output := OutputSeries(DisplayScaled(LinearConvolution(x, h)), TotalPoints);
      traces == Traces(DomainSeries(x), DomainSeries(flipped), DomainSeries(product),
                       output, CombinedSeries(output, x, flipped))
    ensures -(TotalPoints as int) <= t < TotalPoints ==>
      traces.outputSignalData[t + TotalPoints].y == Area(Pointwise(
        Signal(inputShape, TotalPoints), FlippedImpulse(Signal(impulseShape, TotalPoints), t))) / ScalingFactor
  {
    var inputSignalArr := GenerateSignal(inputShape, TotalPoints);
    var impulseResponseArr := GenerateSignal(impulseShape, TotalPoints);
    var convolutionResult := Convolve(inputSignalArr, impulseResponseArr);
    var shiftedFlippedImpulseArr, productArr := FlipShift(inputSignalArr, impulseResponseArr, t);
    var outputSignalData := OutputSeries(convolutionResult[..], TotalPoints);
    traces := Traces(
      DomainSeries(inputSignalArr[..]),
      DomainSeries(shiftedFlippedImpulseArr[..]),
      DomainSeries(productArr[..]),
      outputSignalData,
      CombinedSeries(outputSignalData, inputSignalArr[..], shiftedFlippedImpulseArr[..]));
    if -(TotalPoints as int) <= t < TotalPoints {
      SliceAreaIsOutput(inputSignalArr[..], impulseResponseArr[..], t);
    }
  }
}
