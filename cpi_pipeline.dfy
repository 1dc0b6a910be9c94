/**
 * The CPI pipeline: the headline table built from the data source (IS00
 * by month with its month-over-month change), the anchored trend, the
 * annual change, the per-code series, the latest weights and the
 * contribution table.
 */
module CpiPipeline {
  import opened Wrappers
  import opened Text
  import opened Calendar
  import opened PxData
  import opened Numbers
  import opened Trend
  import opened CpiSource

  /** One row of the `['date', 'CPI', 'Monthly Change']` frame. */
  datatype CpiRow = CpiRow(date: Month, cpi: real, monthlyChange: Float)

  /** `df["CPI"].pct_change(periods=1) * 100.0` appended to date-ordered rows: undefined at row 0. */
  function WithMonthlyChange(rows: seq<(Month, real)>): (r: seq<CpiRow>)
    ensures |r| == |rows|
    ensures forall i :: 0 <= i < |rows| ==> r[i].date == rows[i].0 && r[i].cpi == rows[i].1
    ensures |rows| > 0 ==> r[0].monthlyChange.NaN?
    ensures forall i :: 0 < i < |rows| ==> r[i].monthlyChange == PercentChange(rows[i].1, rows[i - 1].1)
  {
    seq(|rows|, i requires 0 <= i < |rows| =>
      CpiRow(rows[i].0, rows[i].1, if i == 0 then NaN else PercentChange(rows[i].1, rows[i - 1].1)))
  }

  /** The month-over-month change is a percent change wherever the previous month's value is non-zero. */
  lemma MonthlyChangeMeaning(rows: seq<(Month, real)>, i: int)
    requires 0 < i < |rows| && rows[i - 1].1 != 0.0
    ensures WithMonthlyChange(rows)[i].monthlyChange.Finite?
    ensures IsPercentChange(WithMonthlyChange(rows)[i].monthlyChange.v, rows[i].1, rows[i - 1].1)
  {
    PercentChangeIsChange(rows[i].1, rows[i - 1].1);
  }

  datatype Frame = TypeError | Frame(rows: seq<CpiRow>)

  /**
   * `parse_data`: a TypeError for anything but a CPI source; otherwise the
   * IS00 entries whose month parses, in date order, with their change.
   */
  method ParseData(source: object) returns (r: Frame)
    ensures r.TypeError? <==> !(source is Cpi)
    ensures r.Frame? ==>
      r.rows == WithMonthlyChange(SortedRows(SeriesOf((source as Cpi).index, "IS00")))
  {
    if !(source is Cpi) {
      return TypeError;
    }
    var cpi := source as Cpi;
    var series := CollectSeries(cpi.index, "IS00");
    return Frame(WithMonthlyChange(series));
  }

  /** The values of the CPI column. */
  function CpiColumn(rows: seq<CpiRow>): (ys: seq<real>)
    ensures |ys| == |rows|
    ensures forall i :: 0 <= i < |rows| ==> ys[i] == rows[i].cpi
  {
    seq(|rows|, i requires 0 <= i < |rows| => rows[i].cpi)
  }

  /**
   * `compute_trend`: no points for an empty frame; a horizon of zero or
   * less makes `predict` raise on an empty array (None); otherwise the
   * positional fit, shifted to pass through the last actual, at the `h`
   * positions after the data, dated the `h` months after the last row.
   */
  function ComputeTrend(rows: seq<CpiRow>, monthsPredict: int, fit: Fit): (r: Option<seq<(Month, real)>>)
    ensures |rows| == 0 ==> r == Some([])
    ensures r.None? <==> |rows| > 0 && monthsPredict <= 0
    ensures |rows| > 0 && r.Some? ==> |r.value| == monthsPredict
    ensures |rows| > 0 && r.Some? ==> forall i :: 0 <= i < |r.value| ==>
      Index(r.value[i].0) == Index(rows[|rows| - 1].date) + i + 1 &&
      r.value[i].1 == Anchored(fit(Positions(CpiColumn(rows))), (|rows| - 1) as real, rows[|rows| - 1].cpi, (|rows| + i) as real)
  {
    if |rows| == 0 then Some([])
    else if monthsPredict <= 0 then None
    else
      var n := |rows|;
      var ys := CpiColumn(rows);
      var line := fit(Positions(ys));
      var dates := MonthsAfter(rows[n - 1].date, monthsPredict);
      Some(seq(monthsPredict, i requires 0 <= i < monthsPredict =>
        (dates[i], Anchored(line, (n - 1) as real, ys[n - 1], (n + i) as real))))
  }

  /**
   * Read together, the forecast continues the last actual: the anchored
   * line takes the last CPI value at the last position, and consecutive
   * forecasts differ by the fitted slope.
   */
  lemma TrendContinuesLastActual(rows: seq<CpiRow>, monthsPredict: int, fit: Fit, i: int)
    requires |rows| > 0 && 0 < i < monthsPredict
    ensures var l := fit(Positions(CpiColumn(rows)));
            var r := ComputeTrend(rows, monthsPredict, fit).value;
            Anchored(l, (|rows| - 1) as real, rows[|rows| - 1].cpi, (|rows| - 1) as real) == rows[|rows| - 1].cpi &&
            r[i].1 - r[i - 1].1 == l.slope &&
            r[0].1 - rows[|rows| - 1].cpi == l.slope
  {
    var l := fit(Positions(CpiColumn(rows)));
    var r := ComputeTrend(rows, monthsPredict, fit).value;
    var n := |rows|;
    var y := rows[n - 1].cpi;
    var a := (n - 1) as real;
    assert r[i].1 == Anchored(l, a, y, (n + i) as real);
    assert r[i - 1].1 == Anchored(l, a, y, (n + i - 1) as real);
    assert r[0].1 == Anchored(l, a, y, n as real);
    assert (n + i) as real == (n + i - 1) as real + 1.0;
    assert n as real == a + 1.0;
    AnchoredStep(l, a, y, (n + i - 1) as real);
    AnchoredStep(l, a, y, a);
    AnchoredThroughLast(l, a, y, a, a);
  }

  datatype Annual = NoAnnual | KeyError | Annual(percent: real)

  /**
   * `compute_annual_cpi`: None before row 12, for an empty frame or a zero
   * base; a KeyError when `end` is past the last row; otherwise the change
   * from 12 rows earlier.
   */
  function ComputeAnnualCpi(rows: seq<CpiRow>, end: int): (r: Annual)
    ensures r.NoAnnual? <==> end < 12 || |rows| == 0 || (end < |rows| && rows[end - 12].cpi == 0.0)
    ensures r.KeyError? <==> 12 <= end && 0 < |rows| <= end
    ensures r.Annual? ==> 12 <= end < |rows| && IsPercentChange(r.percent, rows[end].cpi, rows[end - 12].cpi)
  {
    if end < 12 || |rows| == 0 then NoAnnual
    else if end >= |rows| then KeyError
    else
      var prior := rows[end - 12].cpi;
      if prior == 0.0 then NoAnnual
      else
        GrowthPercentIsChange(rows[end].cpi, prior);
        Annual(GrowthPercent(rows[end].cpi, prior))
  }

  /** `get_isnr_series`: one code's entries with a real month, in date order, with their change. */
  method GetIsnrSeries(source: Cpi, isnr: string) returns (rows: seq<CpiRow>)
    ensures rows == WithMonthlyChange(SortedRows(SeriesOf(source.index, isnr)))
  {
    var series := CollectSeries(source.index, isnr);
    rows := WithMonthlyChange(series);
  }

  /** The month strings that have a weight. */
  function WeightMonths(weights: Table): (ms: set<string>)
    ensures forall m :: m in ms <==> exists c :: (m, c) in weights
    ensures ms == {} <==> weights == map[]
  {
    var ms := set k | k in weights :: k.0;
    assert weights != map[] ==> ms != {} by {
      if weights != map[] {
        var k :| k in weights;
        assert k.0 in ms;
      }
    }
    assert forall m :: m in ms ==> exists c :: (m, c) in weights by {
      forall m | m in ms
        ensures exists c :: (m, c) in weights
      {
        var k :| k in weights && k.0 == m;
        assert (m, k.1) in weights;
      }
    }
    ms
  }

  /**
   * `latest_weights`: empty without weights; otherwise every code with a
   * weight in the greatest weight month, with that weight.
   */
  method LatestWeights(source: Cpi) returns (out: map<string, real>)
    ensures source.weights == map[] ==> out == map[]
    ensures source.weights != map[] ==>
      var last := Greatest(WeightMonths(source.weights));
      (forall c :: c in out <==> (last, c) in source.weights) &&
      (forall c :: c in out ==> out[c] == source.weights[(last, c)])
  {
    var weights := source.weights;
    if weights == map[] {
      return map[];
    }
    var k0 :| k0 in weights;
    assert k0.0 in WeightMonths(weights);
    var last := Greatest(WeightMonths(weights));
    out := map[];
    var todo := weights.Keys;
    while todo != {}
      invariant todo <= weights.Keys
      invariant forall c :: c in out <==> (last, c) in weights && (last, c) !in todo
      invariant forall c :: c in out ==> out[c] == weights[(last, c)]
      decreases |todo|
    {
      var k :| k in todo;
      if k.0 == last {
        out := out[k.1 := weights[k]];
      }
      todo := todo - {k};
    }
  }

  /** Every month with a weight is no later (as a string) than the month `latest_weights` reports. */
  lemma LatestWeightsMonthIsLatest(weights: Table, m: string, c: string)
    requires (m, c) in weights
    ensures m == Greatest(WeightMonths(weights)) || StrLess(m, Greatest(WeightMonths(weights)))
  {
    assert m in WeightMonths(weights);
  }

  /** One row of the contribution table. */
  datatype Contribution = Contribution(
    isnr: string, labelText: string, date: string, index: real,
    momPct: Float, yoyPct: Float, weight: Option<real>)

  /** `ISNRLabels.get(code) or code`: an unknown or empty label falls back to the code. */
  function LabelFor(labels: string -> Option<string>, code: string): (l: string)
    ensures labels(code).Some? && labels(code).value != "" ==> l == labels(code).value
    ensures labels(code).None? || labels(code).value == "" ==> l == code
  {
    match labels(code)
    case Some(l) => if l == "" then code else l
    case None => code
  }

  /**
   * The row for one code: none with fewer than 13 observations; otherwise
   * its label, the last observation, its change against the one before and the one
   * twelve rows before, and the code's latest weight.
   */
  function ContributionFor(series: seq<(Month, real)>, code: string, labels: string -> Option<string>,
                           weights: map<string, real>): (r: Option<Contribution>)
    requires Dated(series)
    ensures r.None? <==> |series| < 13
    ensures r.Some? ==>
      var n := |series|;
      r.value.isnr == code && r.value.labelText == LabelFor(labels, code) && r.value.index == series[n - 1].1 &&
      r.value.date == FormatDashed(series[n - 1].0) &&
      r.value.momPct == PercentChange(series[n - 1].1, series[n - 2].1) &&
      r.value.yoyPct == PercentChange(series[n - 1].1, series[n - 13].1) &&
      r.value.weight == (if code in weights then Some(weights[code]) else None)
  {
    if |series| < 13 then None
    else
      var n := |series|;
      var last := series[n - 1];
      Some(Contribution(code, LabelFor(labels, code), FormatDashed(last.0), last.1,
                        PercentChange(last.1, series[n - 2].1), PercentChange(last.1, series[n - 13].1),
                        if code in weights then Some(weights[code]) else None))
  }

  /** Every row's month is one that strftime can format. */
  predicate Dated(series: seq<(Month, real)>) {
    forall j :: 0 <= j < |series| ==> InDateRange(series[j].0)
  }

  /** Each listed code with its series as `get_isnr_series` builds it (before the change column). */
  function CodeSeries(index: Table, codes: seq<string>): (cs: seq<(string, seq<(Month, real)>)>)
    ensures |cs| == |codes|
    ensures forall i :: 0 <= i < |codes| ==> cs[i] == (codes[i], SortedRows(SeriesOf(index, codes[i])))
    ensures forall i :: 0 <= i < |codes| ==> Dated(cs[i].1)
  {
    seq(|codes|, i requires 0 <= i < |codes| => (codes[i], SortedRows(SeriesOf(index, codes[i]))))
  }

  /** The rows for the listed codes, in their order, skipping short series. */
  function ContributionRows(cs: seq<(string, seq<(Month, real)>)>, labels: string -> Option<string>,
                            weights: map<string, real>): seq<Contribution>
    requires forall i :: 0 <= i < |cs| ==> Dated(cs[i].1)
    decreases |cs|
  {
    if |cs| == 0 then []
    else
      var rest := ContributionRows(cs[..|cs| - 1], labels, weights);
      var last := cs[|cs| - 1];
      match ContributionFor(last.1, last.0, labels, weights)
      case Some(row) => rest + [row]
      case None => rest
  }

  /** A code has a row exactly when it is listed and its series has at least 13 observations. */
  lemma {:induction false} ContributionRowsCover(cs: seq<(string, seq<(Month, real)>)>, labels: string -> Option<string>,
                                                 weights: map<string, real>, code: string)
    requires forall i :: 0 <= i < |cs| ==> Dated(cs[i].1)
    ensures (exists row :: row in ContributionRows(cs, labels, weights) && row.isnr == code) <==>
            exists i :: 0 <= i < |cs| && cs[i].0 == code && |cs[i].1| >= 13
    decreases |cs|
  {
    if |cs| > 0 {
      var prefix := cs[..|cs| - 1];
      ContributionRowsCover(prefix, labels, weights, code);
      var last := cs[|cs| - 1];
      var rows := ContributionRows(cs, labels, weights);
      assert forall i :: 0 <= i < |prefix| ==> prefix[i] == cs[i];
      match ContributionFor(last.1, last.0, labels, weights) {
        case Some(row) =>
          if last.0 == code {
            assert rows[|rows| - 1] == row;
          }
        case None =>
      }
    }
  }

  /** `if top_k: df = df.head(top_k)`: None and 0 keep every row; a negative k drops the last |k|. */
  function KeptCount(n: nat, topK: Option<int>): (k: nat)
    ensures k <= n
    ensures topK.None? || topK.value == 0 ==> k == n
    ensures topK.Some? && topK.value > 0 ==> k == if topK.value < n then topK.value else n
    ensures topK.Some? && topK.value < 0 ==> k == if n + topK.value > 0 then n + topK.value else 0
  {
    match topK
    case None => n
    case Some(t) =>
      if t == 0 then n
      else if t > 0 then (if t < n then t else n)
      else if n + t > 0 then n + t else 0
  }

  /** The loop of `contribution_table` over the listed codes. */
  method CollectContributions(index: Table, codes: seq<string>, labels: string -> Option<string>,
                              weights: map<string, real>) returns (rows: seq<Contribution>)
    ensures rows == ContributionRows(CodeSeries(index, codes), labels, weights)
  {
    ghost var cs := CodeSeries(index, codes);
    rows := [];
    var i := 0;
    while i < |codes|
      invariant 0 <= i <= |codes|
      invariant rows == ContributionRows(cs[..i], labels, weights)
    {
      var series := CollectSeries(index, codes[i]);
      assert cs[i] == (codes[i], series);
      var entry := ContributionFor(series, codes[i], labels, weights);
      ContributionRowsStep(cs, i, labels, weights, rows, entry);
      ghost var next := ContributionRows(cs[..i + 1], labels, weights);
      if entry.Some? {
        rows := rows + [entry.value];
      }
      assert rows == next;
      i := i + 1;
      assert rows == ContributionRows(cs[..i], labels, weights);
    }
    assert cs[..i] == cs;
  }

  /** Taking one more code adds that code's row, if it has one. */
  lemma ContributionRowsStep(cs: seq<(string, seq<(Month, real)>)>, i: nat, labels: string -> Option<string>,
                             weights: map<string, real>, rows: seq<Contribution>, entry: Option<Contribution>)
    requires i < |cs|
    requires forall j :: 0 <= j < |cs| ==> Dated(cs[j].1)
    requires rows == ContributionRows(cs[..i], labels, weights)
    requires entry == ContributionFor(cs[i].1, cs[i].0, labels, weights)
    ensures ContributionRows(cs[..i + 1], labels, weights) == if entry.Some? then rows + [entry.value] else rows
  {
    assert cs[..i + 1][..i] == cs[..i];
  }

  /** What `contribution_table` ends with: a table, or the `KeyError` its final sort raises. */
  datatype TableOutcome = Table(rows: seq<Contribution>) | SortKeyError

  /**
   * `contribution_table` as written: the final `sort_values` is given the
   * row labels 0, 1, ... as `by`, which pandas looks up as column names; no
   * column is named so, and the call raises `KeyError` whenever a row exists.
   * Only the empty table is returned.
   */
  method ContributionTable(source: Cpi, labels: string -> Option<string>, topK: Option<int>)
    returns (r: TableOutcome)
    ensures var all := ContributionRows(CodeSeries(source.index, source.ListIsNrValues()), labels, LatestWeightsOf(source));
            r == if all == [] then Table([]) else SortKeyError
  {
    var weights := LatestWeights(source);
    LatestWeightsIsFunction(source, weights);
    var rows := CollectContributions(source.index, source.ListIsNrValues(), labels, weights);
    if rows == [] {
      return Table([]);
    }
    return SortKeyError;
  }

  /**
   * `contribution_table` as its documentation describes it: the rows sorted
   * by the magnitude of their month-over-month change, largest first, and
   * cut by `head(top_k)`.
   */
  method SortedContributionTable(source: Cpi, labels: string -> Option<string>, topK: Option<int>)
    returns (rows: seq<Contribution>)
    ensures var all := ContributionRows(CodeSeries(source.index, source.ListIsNrValues()), labels, LatestWeightsOf(source));
            rows == TopContributions(all, topK)
  {
    var weights := LatestWeights(source);
    LatestWeightsIsFunction(source, weights);
    var all := CollectContributions(source.index, source.ListIsNrValues(), labels, weights);
    rows := TopContributions(all, topK);
  }

  /**
   * `abs(a)` comes no later than `abs(b)` in a descending sort with NaN
   * last: infinities first, then finite values by magnitude, then NaN.
   */
  predicate NoLater(a: Float, b: Float) {
    match a
    case NaN => b.NaN?
    case Infinite(_) => true
    case Finite(x) =>
      match b
      case NaN => true
      case Infinite(_) => false
      case Finite(y) => (if x < 0.0 then -x else x) >= (if y < 0.0 then -y else y)
  }

  lemma NoLaterTotal(a: Float, b: Float)
    ensures NoLater(a, b) || NoLater(b, a)
  {
  }

  /** The rows are in the order of the intended sort. */
  predicate ByMagnitude(rows: seq<Contribution>) {
    forall i, j :: 0 <= i < j < |rows| ==> NoLater(rows[i].momPct, rows[j].momPct)
  }

  /** Insert a row into rows already in order, before the first row it comes no later than. */
  function InsertByMagnitude(x: Contribution, rows: seq<Contribution>): (r: seq<Contribution>)
    requires ByMagnitude(rows)
    ensures multiset(r) == multiset(rows) + multiset{x}
    ensures ByMagnitude(r)
    decreases |rows|
  {
    if rows == [] || NoLater(x.momPct, rows[0].momPct) then
      [x] + rows
    else
      var rest := InsertByMagnitude(x, rows[1..]);
      assert rows == [rows[0]] + rows[1..];
      NoLaterTotal(x.momPct, rows[0].momPct);
      assert forall k :: 0 <= k < |rest| ==> NoLater(rows[0].momPct, rest[k].momPct) by {
        forall k | 0 <= k < |rest|
          ensures NoLater(rows[0].momPct, rest[k].momPct)
        {
          assert rest[k] in multiset(rest);
          assert rest[k] == x || rest[k] in multiset(rows[1..]);
          if rest[k] != x {
            var j :| 0 <= j < |rows[1..]| && rows[1..][j] == rest[k];
            assert rows[j + 1] == rest[k];
          }
        }
      }
      [rows[0]] + rest
  }

  /** The rows sorted by the magnitude of their month-over-month change, largest first. */
  function SortByMagnitude(rows: seq<Contribution>): (r: seq<Contribution>)
    ensures multiset(r) == multiset(rows)
    ensures ByMagnitude(r)
  {
    if rows == [] then []
    else
      assert rows == [rows[0]] + rows[1..];
      InsertByMagnitude(rows[0], SortByMagnitude(rows[1..]))
  }

  /**
   * The intended table: the rows by magnitude of change, cut to the count
   * `head(top_k)` keeps; every row kept comes no later than every row cut.
   */
  function TopContributions(all: seq<Contribution>, topK: Option<int>): (r: seq<Contribution>)
    ensures |r| == KeptCount(|all|, topK)
    ensures ByMagnitude(r)
    ensures multiset(r) <= multiset(all)
    ensures forall i, j :: 0 <= i < |r| <= j < |all| ==> NoLater(r[i].momPct, SortByMagnitude(all)[j].momPct)
  {
    var sorted := SortByMagnitude(all);
    assert |sorted| == |multiset(sorted)| == |multiset(all)| == |all|;
    var r := sorted[..KeptCount(|all|, topK)];
    assert sorted == r + sorted[|r|..];
    assert multiset(sorted) == multiset(r) + multiset(sorted[|r|..]);
    r
  }

  /** The map `latest_weights` returns, as a function of the source. */
  function LatestWeightsOf(source: Cpi): (out: map<string, real>)
    reads source
  {
    if source.weights == map[] then map[]
    else
      var last := Greatest(WeightMonths(source.weights));
      map c | c in (set k | k in source.weights && k.0 == last :: k.1) :: source.weights[(last, c)]
  }

  /** `LatestWeights` computes `LatestWeightsOf`: its postcondition fixes the map. */
  lemma LatestWeightsIsFunction(source: Cpi, out: map<string, real>)
    requires source.weights == map[] ==> out == map[]
    requires source.weights != map[] ==>
      var last := Greatest(WeightMonths(source.weights));
      (forall c :: c in out <==> (last, c) in source.weights) &&
      (forall c :: c in out ==> out[c] == source.weights[(last, c)])
    ensures out == LatestWeightsOf(source)
  {
    if source.weights != map[] {
      var last := Greatest(WeightMonths(source.weights));
      var expected := LatestWeightsOf(source);
      forall c
        ensures c in out <==> c in expected
      {
        if (last, c) in source.weights {
          assert c in (set k | k in source.weights && k.0 == last :: k.1);
        }
      }
    }
  }
}
