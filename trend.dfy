/**
 * What the forecasters share around the least-squares fit. The fit itself
 * (scikit-learn's LinearRegression) is not modelled: it is a function
 * from training points to a line, passed in by the caller.
 */
module Trend {
  import opened Calendar

  /** A fitted line `y = slope * x + intercept`. */
  datatype Line = Line(slope: real, intercept: real) {
    function At(x: real): real {
      slope * x + intercept
    }
  }

  /** `LinearRegression().fit(X, y)` for training points `(x, y)`. */
  type Fit = seq<(real, real)> -> Line

  /** Training points for a positional fit: the i-th value sits at x = i. */
  function Positions(ys: seq<real>): (pts: seq<(real, real)>)
    ensures |pts| == |ys|
    ensures forall i :: 0 <= i < |ys| ==> pts[i] == (i as real, ys[i])
  {
    seq(|ys|, i requires 0 <= i < |ys| => (i as real, ys[i]))
  }

  /**
   * `model.predict(x) + bias` where `bias = lastY - model.predict(lastX)`:
   * the fitted line shifted so that it passes through the last actual.
   */
  function Anchored(l: Line, lastX: real, lastY: real, x: real): real {
    l.At(x) + (lastY - l.At(lastX))
  }

  /** The anchored line passes through the last actual and keeps the fitted slope. */
  lemma AnchoredThroughLast(l: Line, lastX: real, lastY: real, x1: real, x2: real)
    ensures Anchored(l, lastX, lastY, lastX) == lastY
    ensures Anchored(l, lastX, lastY, x2) - Anchored(l, lastX, lastY, x1) == l.slope * (x2 - x1)
  {
    assert l.At(x2) - l.At(x1) == l.slope * (x2 - x1);
  }

  /** The value at `x` of the line with `l`'s slope through `(lastX, lastY)`. */
  function PointSlope(l: Line, lastX: real, lastY: real, x: real): real {
    lastY + l.slope * (x - lastX)
  }

  /** Every point of an anchored prediction is in point-slope form. */
  lemma AnchoredAll(l: Line, lastX: real, lastY: real, xs: seq<real>, ys: seq<real>)
    requires |xs| == |ys|
    requires forall i :: 0 <= i < |ys| ==> ys[i] == Anchored(l, lastX, lastY, xs[i])
    ensures forall i :: 0 <= i < |ys| ==> ys[i] == PointSlope(l, lastX, lastY, xs[i])
  {
    forall i | 0 <= i < |ys|
      ensures ys[i] == PointSlope(l, lastX, lastY, xs[i])
    {
      AnchoredThroughLast(l, lastX, lastY, lastX, xs[i]);
    }
  }

  /** One step to the right moves the anchored line up by the slope. */
  lemma AnchoredStep(l: Line, lastX: real, lastY: real, x: real)
    ensures Anchored(l, lastX, lastY, x + 1.0) - Anchored(l, lastX, lastY, x) == l.slope
  {
    AnchoredThroughLast(l, lastX, lastY, x, x + 1.0);
  }

  /**
   * Python's `s[-w:] if len(s) > w else s` (and `s.iloc[-w:]` under the
   * same guard). A window of 0 keeps everything, because `s[-0:]` is the
   * whole sequence; a negative window drops the first `-w` elements.
   */
  function TailWindow<T>(s: seq<T>, w: int): (r: seq<T>)
    ensures |r| <= |s| && r == s[|s| - |r|..]
    ensures w > 0 ==> |r| == if w < |s| then w else |s|
    ensures w == 0 ==> r == s
    ensures w < 0 ==> |r| == if -w < |s| then |s| + w else 0
  {
    if |s| <= w then s
    else if w > 0 then s[|s| - w..]
    else if w == 0 then s
    else if -w <= |s| then s[-w..]
    else []
  }

  /**
   * The fitted line continued past the training positions: point i is
   * dated i + 1 months after `last` and sits at position |y| + i. The
   * horizon is positive: `predict` raises on the empty array a horizon of
   * zero or less gives, and the callers return that error instead.
   */
  function ContinueFit(y: seq<real>, last: Month, months: int, fit: Fit): (r: seq<(Month, real)>)
    requires months > 0
    ensures |r| == months
    ensures forall i :: 0 <= i < |r| ==>
      Index(r[i].0) == Index(last) + i + 1 && r[i].1 == fit(Positions(y)).At((|y| + i) as real)
  {
    var line := fit(Positions(y));
    var dates := MonthsAfter(last, months);
    seq(months, i requires 0 <= i < months => (dates[i], line.At((|y| + i) as real)))
  }

  /** Consecutive points of the continued fit differ by the slope, and their dates by one month. */
  lemma ContinueFitSteps(y: seq<real>, last: Month, months: int, fit: Fit, i: int)
    requires 0 < i < months
    ensures var r := ContinueFit(y, last, months, fit);
            r[i].1 - r[i - 1].1 == fit(Positions(y)).slope && Index(r[i].0) == Index(r[i - 1].0) + 1
  {
    var l := fit(Positions(y));
    var x := (|y| + i - 1) as real;
    assert (|y| + i) as real == x + 1.0;
    assert l.At(x + 1.0) - l.At(x) == l.slope;
  }
}
