/**
 * The time-transformation widget: a unit triangle x(t), the argument map
 * t |-> scale*t - shift (negated when "reverse" is ticked) at which the
 * transformed curve evaluates x, and the caption "x(...)" shown above the plot.
 */
module TimeTransformation {
  import opened Common

  /** The triangle x(t): rises on [-1, 0], falls on (0, 1], zero elsewhere. */
  function OriginalSignal(t: real): (r: real)
    ensures 0.0 <= r <= 1.0
    ensures (t < -1.0 || 1.0 < t) ==> r == 0.0
    ensures r == if Abs(t) <= 1.0 then 1.0 - Abs(t) else 0.0
  {
    if -1.0 <= t <= 0.0 then t + 1.0
    else if 0.0 < t <= 1.0 then 1.0 - t
    else 0.0
  }

  lemma OriginalSignalIsEven(t: real)
    ensures OriginalSignal(-t) == OriginalSignal(t)
  {
  }

  /** The triangle reaches its peak 1 at t = 0 and nowhere else. */
  lemma OriginalSignalPeak(t: real)
    ensures OriginalSignal(t) == 1.0 <==> t == 0.0
  {
  }

  /** The triangle is non-zero exactly on the open interval (-1, 1). */
  lemma OriginalSignalSupport(t: real)
    ensures OriginalSignal(t) != 0.0 <==> -1.0 < t < 1.0
  {
  }

  /** The point at which the transformed curve samples x: scale first, then shift, then reverse. */
  function TransformedArgument(timeScale: real, timeShift: real, timeReverse: bool, t: real): (r: real)
    ensures Abs(r) == Abs(timeScale * t - timeShift)
    ensures r == timeScale * t - timeShift <==> !timeReverse || timeScale * t == timeShift
  {
    var transformedInput := timeScale * t - timeShift;
    if timeReverse then -transformedInput else transformedInput
  }

  /** The value plotted on the transformed curve at sample time t. */
  function TransformedValue(timeScale: real, timeShift: real, timeReverse: bool, t: real): (r: real)
    ensures 0.0 <= r <= 1.0
    ensures (timeScale * t - timeShift < -1.0 || 1.0 < timeScale * t - timeShift) ==> r == 0.0
  {
    OriginalSignal(TransformedArgument(timeScale, timeShift, timeReverse, t))
  }

  /** With the sliders at their defaults the transformed curve coincides with the original. */
  lemma IdentityTransform(t: real)
    ensures TransformedArgument(1.0, 0.0, false, t) == t
    ensures TransformedValue(1.0, 0.0, false, t) == OriginalSignal(t)
  {
  }

  /** Reversal negates the whole argument, shift included. */
  lemma ReversalNegatesArgument(timeScale: real, timeShift: real, t: real)
    ensures TransformedArgument(timeScale, timeShift, true, t)
         == -TransformedArgument(timeScale, timeShift, false, t)
         == timeShift - timeScale * t
  {
  }

  /**
   * Because x is even, ticking "reverse" never changes the plotted curve:
   * x(-(a*t - b)) = x(a*t - b) for every sample.
   */
  lemma {:induction false} ReversalInvisible(timeScale: real, timeShift: real, t: real)
    ensures TransformedValue(timeScale, timeShift, true, t)
         == TransformedValue(timeScale, timeShift, false, t)
  {
    OriginalSignalIsEven(TransformedArgument(timeScale, timeShift, false, t));
  }

  /** A pure shift delays the triangle: y(t) = x(t - b). */
  lemma ShiftDelays(timeShift: real, t: real)
    ensures TransformedValue(1.0, timeShift, false, t) == OriginalSignal(t - timeShift)
  {
  }

  lemma MulPositiveBounds(c: real, a: real, t: real)
    requires 0.0 < c
    ensures a < c * t <==> a / c < t
    ensures c * t < a <==> t < a / c
  {
    assert (a / c) * c == a;
    if a < c * t {
      assert c * (a / c) < c * t;
    }
    if a / c < t {
      assert c * (a / c) < c * t;
    }
    if c * t < a {
      assert c * t < c * (a / c);
    }
    if t < a / c {
      assert c * t < c * (a / c);
    }
  }

  /**
   * For a positive scale the transformed curve is non-zero exactly on the
   * open interval ((b - 1)/a, (b + 1)/a), whether or not it is reversed.
   */
  lemma {:induction false} TransformedSupport(timeScale: real, timeShift: real, timeReverse: bool, t: real)
    requires 0.0 < timeScale
    ensures TransformedValue(timeScale, timeShift, timeReverse, t) != 0.0
        <==> (timeShift - 1.0) / timeScale < t < (timeShift + 1.0) / timeScale
  {
    var u := timeScale * t - timeShift;
    ReversalInvisible(timeScale, timeShift, t);
    OriginalSignalSupport(u);
    MulPositiveBounds(timeScale, timeShift - 1.0, t);
    MulPositiveBounds(timeScale, timeShift + 1.0, t);
  }

  /** How the shift appears in the caption. */
  datatype ShiftTerm = NoShift | Minus(amount: real) | Plus(amount: real)

  /** The parts of the caption x([-][scale]t[ - s | + s]). */
  datatype Label = Label(negated: bool, scale: Option<real>, shift: ShiftTerm)

  /** The caption's parts as the widget chooses them from the slider values. */
  function LabelOf(timeScale: real, timeShift: real, timeReverse: bool): (caption: Label)
    ensures caption.negated == timeReverse
    ensures caption.scale == None <==> timeScale == 1.0
    ensures caption.scale.Some? ==> caption.scale.value == timeScale
    ensures match caption.shift
      case NoShift => timeShift == 0.0
      case Minus(m) => 0.0 < m && timeShift == m
      case Plus(m) => 0.0 < m && timeShift == -m
  {
    Label(
      timeReverse,
      if timeScale != 1.0 then Some(timeScale) else None,
      if timeShift == 0.0 then NoShift
      else if timeShift > 0.0 then Minus(timeShift)
      else Plus(Abs(timeShift)))
  }

  /** The caption text; `show` stands for JavaScript's number-to-string conversion. */
  function Render(caption: Label, show: real -> string): (r: string)
    ensures |r| >= 4 && r[..2] == "x(" && r[|r| - 1] == ')' && 't' in r
  {
    "x("
    + (if caption.negated then "-" else "")
    + (match caption.scale case Some(v) => show(v) case None => "")
    + "t"
    + (match caption.shift
       case NoShift => ""
       case Minus(m) => " - " + show(m)
       case Plus(m) => " + " + show(m))
    + ")"
  }

  /** The caption, appended piece by piece as the widget builds it. */
  method TransformationText(timeScale: real, timeShift: real, timeReverse: bool, show: real -> string)
    returns (result: string)
    ensures result == Render(LabelOf(timeScale, timeShift, timeReverse), show)
  {
    result := "x(";
    if timeReverse {
      result := result + "-";
    }
    if timeScale != 1.0 {
      result := result + show(timeScale);
    }
    result := result + "t";
    if timeShift != 0.0 {
      result := result + (if timeShift > 0.0 then " - " + show(timeShift) else " + " + show(Abs(timeShift)));
    }
    result := result + ")";
  }

  /** A number rendering that does not begin with a minus sign. */
  predicate Unsigned(s: string)
  {
    |s| == 0 || s[0] != '-'
  }

  /**
   * A "-" follows "x(" exactly when reverse is ticked (the scale slider is
   * positive, so its rendering carries no sign), and the scale is printed
   * exactly when it is not 1.
   */
  lemma TextPrefix(timeScale: real, timeShift: real, timeReverse: bool, show: real -> string)
    requires timeScale == 1.0 || Unsigned(show(timeScale))
    ensures var r := Render(LabelOf(timeScale, timeShift, timeReverse), show);
      var k := if timeReverse then 3 else 2;
      && |r| > k
      && (r[2] == '-' <==> timeReverse)
      && (timeScale == 1.0 ==> r[k] == 't')
      && (timeScale != 1.0 ==> |r| > k + |show(timeScale)| && r[k..k + |show(timeScale)|] == show(timeScale))
  {
    var r := Render(LabelOf(timeScale, timeShift, timeReverse), show);
    var neg := if timeReverse then "-" else "";
    var sc := if timeScale != 1.0 then show(timeScale) else "";
    var sh := match LabelOf(timeScale, timeShift, timeReverse).shift
       case NoShift => ""
       case Minus(m) => " - " + show(m)
       case Plus(m) => " + " + show(m);
    assert r == "x(" + neg + sc + "t" + sh + ")";
    assert r[2 + |neg| + |sc|] == 't';
    assert r[2 + |neg|..2 + |neg| + |sc|] == sc;
  }

  /** The shift part is omitted for 0, reads " - s" for s > 0 and " + |s|" for s < 0. */
  lemma TextSuffix(timeScale: real, timeShift: real, timeReverse: bool, show: real -> string)
    ensures var r := Render(LabelOf(timeScale, timeShift, timeReverse), show);
      && (timeShift == 0.0 ==> |r| >= 2 && r[|r| - 2..] == "t)")
      && (timeShift > 0.0 ==> var s := " - " + show(timeShift) + ")"; |r| >= |s| && r[|r| - |s|..] == s)
      && (timeShift < 0.0 ==> var s := " + " + show(-timeShift) + ")"; |r| >= |s| && r[|r| - |s|..] == s)
  {
    var r := Render(LabelOf(timeScale, timeShift, timeReverse), show);
    var neg := if timeReverse then "-" else "";
    var sc := if timeScale != 1.0 then show(timeScale) else "";
    var sh := if timeShift == 0.0 then ""
      else if timeShift > 0.0 then " - " + show(timeShift)
      else " + " + show(-timeShift);
    assert r == ("x(" + neg + sc + "t") + (sh + ")");
  }

  /** The affine map that a caption denotes: x(-a t - s) reads as t |-> -a*t - s. */
  function Denotes(caption: Label, t: real): real
  {
    var sign := if caption.negated then -1.0 else 1.0;
    var scale := match caption.scale case Some(v) => v case None => 1.0;
    var offset := match caption.shift case NoShift => 0.0 case Minus(m) => -m case Plus(m) => m;
    sign * scale * t + offset
  }

  /** Without reversal the caption denotes exactly the argument that is plotted. */
  lemma LabelDenotesArgumentUnreversed(timeScale: real, timeShift: real, t: real)
    ensures Denotes(LabelOf(timeScale, timeShift, false), t)
         == TransformedArgument(timeScale, timeShift, false, t)
  {
  }

  /**
   * Under reversal the caption reads x(-a t - b) while the curve evaluates
   * x(-(a t - b)) = x(-a t + b): they agree only when the shift is zero.
   */
  lemma LabelDisagreesUnderReversal(timeScale: real, timeShift: real, t: real)
    ensures Denotes(LabelOf(timeScale, timeShift, true), t)
         == TransformedArgument(timeScale, timeShift, true, t)
       <==> timeShift == 0.0
  {
  }

  /** Concretely: scale 1, shift 1, reversed, at t = 1 the caption predicts 0, the curve shows 1. */
  lemma LabelCounterexample()
    ensures OriginalSignal(Denotes(LabelOf(1.0, 1.0, true), 1.0)) == 0.0
    ensures TransformedValue(1.0, 1.0, true, 1.0) == 1.0
  {
  }

  /**
   * The other reading of the caption: reverse time first, then scale and
   * shift, so that the curve is x(a*(-t) - b) when reversed.
   */
  function ReversedFirstArgument(timeScale: real, timeShift: real, timeReverse: bool, t: real): real
  {
    timeScale * (if timeReverse then -t else t) - timeShift
  }

  /** The caption as the widget prints it denotes exactly the reverse-first argument. */
  lemma LabelDenotesReversedFirst(timeScale: real, timeShift: real, timeReverse: bool, t: real)
    ensures Denotes(LabelOf(timeScale, timeShift, timeReverse), t)
         == ReversedFirstArgument(timeScale, timeShift, timeReverse, t)
  {
  }

  /** Under the reverse-first reading the switch is visible: scale 1, shift 1, at t = 1 it turns 1 into 0. */
  lemma ReversedFirstChangesCurve()
    ensures OriginalSignal(ReversedFirstArgument(1.0, 1.0, false, 1.0)) == 1.0
    ensures OriginalSignal(ReversedFirstArgument(1.0, 1.0, true, 1.0)) == 0.0
  {
  }

  /** The caption that matches the plot: under reversal the shift changes sign. */
  function CorrectedLabelOf(timeScale: real, timeShift: real, timeReverse: bool): (caption: Label)
    ensures forall t :: Denotes(caption, t) == TransformedArgument(timeScale, timeShift, timeReverse, t)
    ensures !timeReverse ==> caption == LabelOf(timeScale, timeShift, timeReverse)
  {
    var offset := if timeReverse then -timeShift else timeShift;
    Label(
      timeReverse,
      if timeScale != 1.0 then Some(timeScale) else None,
      if offset == 0.0 then NoShift
      else if offset > 0.0 then Minus(offset)
      else Plus(Abs(offset)))
  }
}
