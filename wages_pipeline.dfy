/**
 * The wage pipeline: the series of one category with a fallback to the
 * first category, and the forecast anchored to the last observation with
 * calendar day numbers as the regression abscissa.
 */
module WagesPipeline {
  import opened Wrappers
  import opened Text
  import opened Calendar
  import opened PxData
  import opened Trend
  import opened WageIndexSource

  /** The series `fetch_wage_series` returns, as a function of the source's table and categories. */
  function WageSeriesOf(index: Table, categories: set<string>, category: string): seq<(Month, real)> {
    var rows := SortedRows(SeriesOf(index, category));
    if rows != [] then rows
    else if categories == {} then []
    else SortedRows(SeriesOf(index, SortedStrings(categories)[0]))
  }

  /**
   * `fetch_wage_series` after the fetch: the requested category's series,
   * else that of the first category in sorted order, else nothing.
   */
  method FetchWageSeries(src: WageIndex, category: string) returns (rows: seq<(Month, real)>)
    ensures rows == WageSeriesOf(src.index, src.categories, category)
    ensures AscendingRows(rows)
  {
    rows := src.GetSeries(category);
    if rows == [] {
      var cats := src.ListCategories();
      if cats == [] {
        return [];
      }
      rows := src.GetSeries(cats[0]);
    }
  }

  /** The fallback only applies when the requested category has no row with a real month. */
  lemma FallbackOnlyWhenEmpty(index: Table, categories: set<string>, category: string, d: string)
    requires (d, category) in index && ParseCompact(d).Some?
    ensures WageSeriesOf(index, categories, category) == SortedRows(SeriesOf(index, category))
  {
    SeriesOfComplete(index, category, d);
    var rows := SortedRows(SeriesOf(index, category));
    assert |rows| == |SeriesOf(index, category)| > 0;
  }

  /** `series.dropna()`: the months whose value is present. */
  function Present(series: map<Month, Option<real>>): (s: map<Month, real>)
    ensures forall m :: m in s <==> m in series && series[m].Some?
    ensures forall m :: m in s ==> s[m] == series[m].value
  {
    map m | m in series && series[m].Some? :: series[m].value
  }

  /** Training points `(date2num(date), value)`. */
  function DayPoints(rows: seq<(Month, real)>): (pts: seq<(real, real)>)
    ensures |pts| == |rows|
    ensures forall i :: 0 <= i < |rows| ==> pts[i] == (DayNumber(rows[i].0) as real, rows[i].1)
  {
    seq(|rows|, i requires 0 <= i < |rows| => (DayNumber(rows[i].0) as real, rows[i].1))
  }

  /** The observations the wage forecast trains on: present values in date order, cut to the window. */
  function WageTraining(series: map<Month, Option<real>>, window: int): seq<(Month, real)> {
    TailWindow(SortedRows(Present(series)), window)
  }

  /**
   * The forecast from a nonempty training set over a positive horizon:
   * `months` points dated 1..months months after the last observation, each
   * the line fitted on day numbers, shifted to pass through the last
   * observation.
   */
  function Extrapolate(s: seq<(Month, real)>, months: int, fit: Fit): (r: seq<(Month, real)>)
    requires |s| > 0 && months > 0
    ensures |r| == months
    ensures forall i :: 0 <= i < |r| ==>
      Index(r[i].0) == Index(s[|s| - 1].0) + i + 1 &&
      r[i].1 == Anchored(fit(DayPoints(s)), DayNumber(s[|s| - 1].0) as real, s[|s| - 1].1, DayNumber(r[i].0) as real)
  {
    var last := s[|s| - 1];
    var line := fit(DayPoints(s));
    var dates := MonthsAfter(last.0, months);
    seq(months, i requires 0 <= i < months =>
      (dates[i], Anchored(line, DayNumber(last.0) as real, last.1, DayNumber(dates[i]) as real)))
  }

  /**
   * `compute_forecast`: an empty series (after dropping missing values)
   * gives no points; a window that leaves nothing to fit on makes the fit
   * raise, and a horizon of zero or less makes `predict` raise on an empty
   * array (None); otherwise the extrapolation of the training set.
   */
  function ComputeForecast(series: map<Month, Option<real>>, months: int, window: int, fit: Fit): (r: Option<seq<(Month, real)>>)
    ensures |Present(series)| == 0 ==> r == Some([])
    ensures r.None? <==> |Present(series)| > 0 && (|WageTraining(series, window)| == 0 || months <= 0)
    ensures |WageTraining(series, window)| > 0 && months > 0 ==> r == Some(Extrapolate(WageTraining(series, window), months, fit))
  {
    var sorted := SortedRows(Present(series));
    if |sorted| == 0 then Some([])
    else
      var s := TailWindow(sorted, window);
      if |s| == 0 || months <= 0 then None else Some(Extrapolate(s, months, fit))
  }

  /** A nonnegative window keeps the last observation, and a positive one at most `window` of the latest points. */
  lemma WageTrainingWindow(series: map<Month, Option<real>>, window: int)
    requires |Present(series)| > 0 && window >= 0
    ensures var all := SortedRows(Present(series));
            var s := WageTraining(series, window);
            |s| > 0 && s[|s| - 1] == all[|all| - 1] &&
            (window > 0 ==> |s| <= window) &&
            (window > 0 && |all| > window ==> s == all[|all| - window..])
  {
  }

  /**
   * A nonnegative window never leaves the fit without data, so with a
   * positive horizon the forecast is always defined.
   */
  lemma ComputeForecastDefined(series: map<Month, Option<real>>, months: int, window: int, fit: Fit)
    requires window >= 0 && months > 0
    ensures ComputeForecast(series, months, window, fit).Some?
  {
    if |Present(series)| > 0 {
      WageTrainingWindow(series, window);
    }
  }

  /**
   * The forecast lies on the fitted slope through the last observation:
   * each point is the last value plus the slope times the days elapsed.
   */
  lemma ForecastFromLast(s: seq<(Month, real)>, months: int, fit: Fit)
    requires |s| > 0 && months > 0
    ensures var r := Extrapolate(s, months, fit);
            var last := s[|s| - 1];
            forall i :: 0 <= i < |r| ==>
              r[i].1 == PointSlope(fit(DayPoints(s)), DayNumber(last.0) as real, last.1, DayNumber(r[i].0) as real)
  {
    var r := Extrapolate(s, months, fit);
    var last := s[|s| - 1];
    DatedPointSlope(fit(DayPoints(s)), DayNumber(last.0) as real, last.1, r);
  }

  /** Dated points on the anchored line are in point-slope form. */
  lemma DatedPointSlope(l: Line, lastX: real, lastY: real, r: seq<(Month, real)>)
    requires forall i :: 0 <= i < |r| ==> r[i].1 == Anchored(l, lastX, lastY, DayNumber(r[i].0) as real)
    ensures forall i :: 0 <= i < |r| ==> r[i].1 == PointSlope(l, lastX, lastY, DayNumber(r[i].0) as real)
  {
    forall i | 0 <= i < |r|
      ensures r[i].1 == PointSlope(l, lastX, lastY, DayNumber(r[i].0) as real)
    {
      AnchoredThroughLast(l, lastX, lastY, lastX, DayNumber(r[i].0) as real);
    }
  }

  /** Rows in date order give strictly increasing day-number abscissae. */
  lemma {:induction false} DayPointsIncrease(s: seq<(Month, real)>)
    requires AscendingRows(s)
    ensures var pts := DayPoints(s);
            forall i, j :: 0 <= i < j < |pts| ==> pts[i].0 < pts[j].0
  {
    var pts := DayPoints(s);
    forall i, j | 0 <= i < j < |pts|
      ensures pts[i].0 < pts[j].0
    {
      DayNumberIncreasing(s[i].0, s[j].0);
    }
  }

  /** The training abscissae are day numbers, strictly increasing with the dates. */
  lemma {:induction false} TrainingAbscissaeIncrease(series: map<Month, Option<real>>, window: int)
    ensures var pts := DayPoints(WageTraining(series, window));
            forall i, j :: 0 <= i < j < |pts| ==> pts[i].0 < pts[j].0
  {
    var all := SortedRows(Present(series));
    var s := WageTraining(series, window);
    var off := |all| - |s|;
    assert s == all[off..];
    assert AscendingRows(s) by {
      forall i, j | 0 <= i < j < |s|
        ensures Index(s[i].0) < Index(s[j].0)
      {
        assert s[i] == all[off + i] && s[j] == all[off + j];
      }
    }
    DayPointsIncrease(s);
  }

  /** Forecast dates lie after the last observation and increase, month by month. */
  lemma {:induction false} ForecastDatesIncrease(s: seq<(Month, real)>, months: int, fit: Fit)
    requires |s| > 0 && months > 0
    ensures var r := Extrapolate(s, months, fit);
            forall i, j :: 0 <= i < j < |r| ==> DayNumber(r[i].0) < DayNumber(r[j].0)
    ensures var r := Extrapolate(s, months, fit);
            forall i :: 0 <= i < |r| ==> DayNumber(s[|s| - 1].0) < DayNumber(r[i].0)
  {
    var r := Extrapolate(s, months, fit);
    forall i, j | 0 <= i < j < |r|
      ensures DayNumber(r[i].0) < DayNumber(r[j].0)
    {
      DayNumberIncreasing(r[i].0, r[j].0);
    }
    forall i | 0 <= i < |r|
      ensures DayNumber(s[|s| - 1].0) < DayNumber(r[i].0)
    {
      DayNumberIncreasing(s[|s| - 1].0, r[i].0);
    }
  }
}
