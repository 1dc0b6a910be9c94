/**
 * The chart helpers of the web front end: the percentage change shown in
 * tooltips, the month index of a "YYYY-MM" label, the first label of a
 * "last N years" range, and how `applyRange` pads the history and the
 * forecast series with nulls so that both line up with the labels.
 *
 * JavaScript's `null` (and `undefined`) is `None`; `Number(s)` of a string
 * that is not all digits is NaN, which is `None` as well, and every
 * comparison with NaN is false.
 */
module Charts {
  import opened Wrappers
  import opened Text
  import opened Calendar

  // ---------------------------------------------------------------------
  // pct, ymToIndex
  // ---------------------------------------------------------------------

  /** `pct(curr, prev)`: the change from `prev` to `curr` in percent; null when undefined. */
  function Pct(curr: Option<real>, prev: Option<real>): (r: Option<real>)
    ensures r.Some? <==> curr.Some? && prev.Some? && prev.value != 0.0
    ensures r.Some? ==> r.value * prev.value == (curr.value - prev.value) * 100.0
  {
    if curr.None? || prev.None? || prev.value == 0.0 then None
    else Some((curr.value / prev.value - 1.0) * 100.0)
  }

  /** A rise from a positive value is a positive change, a fall a negative one. */
  lemma PctSign(curr: real, prev: real)
    requires prev > 0.0
    ensures var r := Pct(Some(curr), Some(prev)).value;
            (r > 0.0 <==> curr > prev) && (r == 0.0 <==> curr == prev)
  {
    var r := Pct(Some(curr), Some(prev)).value;
    assert r * prev == (curr - prev) * 100.0;
    if r > 0.0 {
      assert r * prev > 0.0;
    } else if r < 0.0 {
      assert r * prev < 0.0;
    }
  }

  /** `s.slice(a, b)`: both ends clamped to the string. */
  function JsSlice(s: string, a: nat, b: nat): (r: string)
    ensures a <= b <= |s| ==> r == s[a..b]
    ensures a < |s| <= b ==> r == s[a..]
    ensures b <= a || |s| <= a ==> r == []
  {
    var hi := if b < |s| then b else |s|;
    var lo := if a < hi then a else hi;
    s[lo..hi]
  }

  /** `Number(s)` for the strings a label yields: digits (none reads as 0), otherwise NaN. */
  function ToNumber(s: string): (r: Option<int>)
    ensures r.Some? <==> AllDigits(s)
  {
    if AllDigits(s) then Some(DigitsValue(s)) else None
  }

  /** `ymToIndex(ym)`: months since January of year 0, read from "YYYY-MM". */
  function YmToIndex(ym: string): (r: Option<int>)
    ensures r.Some? <==> ToNumber(JsSlice(ym, 0, 4)).Some? && ToNumber(JsSlice(ym, 5, 7)).Some?
  {
    var y := ToNumber(JsSlice(ym, 0, 4));
    var m := ToNumber(JsSlice(ym, 5, 7));
    if y.Some? && m.Some? then Some(y.value * 12 + (m.value - 1)) else None
  }

  /** The index of a formatted month is the month's own index. */
  lemma YmToIndexFormat(m: Month)
    requires InDateRange(m)
    ensures YmToIndex(FormatDashed(m)) == Some(Index(m))
  {
    var s := FormatDashed(m);
    ParseFormat(m, '-');
    assert JsSlice(s, 0, 4) == s[..4] && JsSlice(s, 5, 7) == s[5..];
    DigitsValueOfFixed(s[..4]);
    DigitsValueOfFixed(s[5..]);
  }

  /** The month after `m`. */
  function NextMonth(m: Month): (r: Month)
    ensures Index(r) == Index(m) + 1
  {
    if m.month == 12 then YearMonth(m.year + 1, 1) else YearMonth(m.year, m.month + 1)
  }

  /** Consecutive calendar months have consecutive indices. */
  lemma YmToIndexConsecutive(m: Month)
    requires InDateRange(m) && InDateRange(NextMonth(m))
    ensures YmToIndex(FormatDashed(NextMonth(m))).value == YmToIndex(FormatDashed(m)).value + 1
  {
    YmToIndexFormat(m);
    YmToIndexFormat(NextMonth(m));
  }

  // ---------------------------------------------------------------------
  // sliceStart
  // ---------------------------------------------------------------------

  /** "10y" is ten years, "5y" five, and any other range two. */
  function Years(range: string): (n: int)
    ensures n == 10 || n == 5 || n == 2
    ensures range == "10y" <==> n == 10
  {
    if range == "10y" then 10 else if range == "5y" then 5 else 2
  }

  /** `minMonthIdx`: the earliest month index kept; NaN when the last label is not a month. */
  function MinMonth(labels: seq<string>, range: string): Option<int>
    requires |labels| > 0
  {
    var last := YmToIndex(labels[|labels| - 1]);
    if last.Some? then Some(last.value - Years(range) * 12 + 1) else None
  }

  /** `ymToIndex(label) >= min`, false when either side is NaN. */
  predicate Reaches(ym: string, min: Option<int>) {
    YmToIndex(ym).Some? && min.Some? && YmToIndex(ym).value >= min.value
  }

  /** The first index from `i` on whose label reaches `min`, or 0 when there is none. */
  function FirstReaching(labels: seq<string>, min: Option<int>, i: nat): (r: nat)
    requires i <= |labels|
    ensures (i <= r < |labels| && Reaches(labels[r], min) && forall k :: i <= k < r ==> !Reaches(labels[k], min))
         || (r == 0 && forall k :: i <= k < |labels| ==> !Reaches(labels[k], min))
    decreases |labels| - i
  {
    if i == |labels| then 0
    else if Reaches(labels[i], min) then i
    else FirstReaching(labels, min, i + 1)
  }

  /** What `sliceStart(fullLabels, range)` returns. */
  function SliceStartOf(labels: seq<string>, range: string): (r: nat)
    ensures range == "all" || labels == [] ==> r == 0
    ensures r == 0 || r < |labels|
  {
    if range == "all" || |labels| == 0 then 0 else FirstReaching(labels, MinMonth(labels, range), 0)
  }

  /** `sliceStart`: a scan for the first label inside the range, returning early. */
  method SliceStart(labels: seq<string>, range: string) returns (r: nat)
    ensures r == SliceStartOf(labels, range)
  {
    if range == "all" {
      return 0;
    }
    if |labels| == 0 {
      return 0;
    }
    var min := MinMonth(labels, range);
    for i := 0 to |labels|
      invariant FirstReaching(labels, min, i) == FirstReaching(labels, min, 0)
    {
      if Reaches(labels[i], min) {
        return i;
      }
    }
    return 0;
  }

  /** The labels the server sends: each month formatted as "YYYY-MM". */
  function Labels(ms: seq<Month>): (ls: seq<string>)
    requires forall i :: 0 <= i < |ms| ==> InDateRange(ms[i])
    ensures |ls| == |ms|
    ensures forall i :: 0 <= i < |ms| ==> ls[i] == FormatDashed(ms[i])
  {
    seq(|ms|, i requires 0 <= i < |ms| => FormatDashed(ms[i]))
  }

  /**
   * For month labels and a range other than "all", the slice keeps the last
   * label and starts at the first month less than `years * 12` months
   * before it; with ascending labels every month it drops is older than
   * that and every month it keeps is within it.
   */
  lemma {:induction false} SliceStartWindow(ms: seq<Month>, range: string)
    requires |ms| > 0 && range != "all"
    requires forall i :: 0 <= i < |ms| ==> InDateRange(ms[i])
    ensures var r := SliceStartOf(Labels(ms), range);
            var last := Index(ms[|ms| - 1]);
            r < |ms| &&
            last - Index(ms[r]) < Years(range) * 12 &&
            (forall k :: 0 <= k < r ==> Index(ms[k]) <= last - Years(range) * 12)
    ensures Ascending(ms) ==>
            var r := SliceStartOf(Labels(ms), range);
            forall k :: r <= k < |ms| ==> 0 <= Index(ms[|ms| - 1]) - Index(ms[k]) < Years(range) * 12
  {
    LabelIndices(ms);
    StartWindow(Labels(ms), ms, range);
  }

  /** Each label reads back as its month's index. */
  predicate IndexedBy(ls: seq<string>, ms: seq<Month>) {
    |ls| == |ms| && forall k :: 0 <= k < |ms| ==> YmToIndex(ls[k]) == Some(Index(ms[k]))
  }

  lemma LabelIndices(ms: seq<Month>)
    requires forall i :: 0 <= i < |ms| ==> InDateRange(ms[i])
    ensures IndexedBy(Labels(ms), ms)
  {
    var ls := Labels(ms);
    forall k | 0 <= k < |ms|
      ensures YmToIndex(ls[k]) == Some(Index(ms[k]))
    {
      YmToIndexFormat(ms[k]);
    }
  }

  lemma StartWindow(ls: seq<string>, ms: seq<Month>, range: string)
    requires |ms| > 0 && range != "all" && IndexedBy(ls, ms)
    ensures var r := SliceStartOf(ls, range);
            var last := Index(ms[|ms| - 1]);
            r < |ms| &&
            last - Index(ms[r]) < Years(range) * 12 &&
            (forall k :: 0 <= k < r ==> Index(ms[k]) <= last - Years(range) * 12)
    ensures Ascending(ms) ==>
            var r := SliceStartOf(ls, range);
            forall k :: r <= k < |ms| ==> 0 <= Index(ms[|ms| - 1]) - Index(ms[k]) < Years(range) * 12
  {
    var n := |ms|;
    var last := Index(ms[n - 1]);
    var min := MinMonth(ls, range);
    assert min == Some(last - Years(range) * 12 + 1);
    assert Reaches(ls[n - 1], min);
    var r := SliceStartOf(ls, range);
    assert r == FirstReaching(ls, min, 0);
    assert forall k :: 0 <= k < r ==> !Reaches(ls[k], min);
  }

  // ---------------------------------------------------------------------
  // The tooltip's month-on-month and year-on-year lines
  // ---------------------------------------------------------------------

  /** `s[i]`: undefined (null) outside the array. */
  function At<T>(s: seq<T>, i: int): (r: Option<T>)
    ensures r.Some? <==> 0 <= i < |s|
    ensures r.Some? ==> r.value == s[i]
  {
    if 0 <= i < |s| then Some(s[i]) else None
  }

  /** The value at index `i`, null when absent or itself null. */
  function ValueAt(s: seq<Option<real>>, i: int): Option<real> {
    if 0 <= i < |s| then s[i] else None
  }

  /** The tooltip lines: the change on the month before and on the same month a year before. */
  datatype Line = MonthChange(pct: real) | YearChange(pct: real, against: Option<string>)

  /**
   * `afterBody` for the hovered index `idx` and the hovered dataset's
   * combined series (`None` when the dataset has none).
   */
  function AfterBody(labels: seq<string>, series: Option<seq<Option<real>>>, idx: int): (lines: seq<Line>)
    ensures series.None? ==> lines == []
    ensures forall k :: 0 <= k < |lines| && lines[k].MonthChange? ==>
              k == 0 && idx > 0 && Pct(ValueAt(series.value, idx), ValueAt(series.value, idx - 1)) == Some(lines[k].pct)
    ensures forall k :: 0 <= k < |lines| && lines[k].YearChange? ==>
              k == |lines| - 1 && idx >= 12 && lines[k].against == At(labels, idx - 12) &&
              Pct(ValueAt(series.value, idx), ValueAt(series.value, idx - 12)) == Some(lines[k].pct)
    ensures series.Some? && idx > 0 && Pct(ValueAt(series.value, idx), ValueAt(series.value, idx - 1)).Some? ==>
              |lines| > 0 && lines[0].MonthChange?
    ensures series.Some? && idx >= 12 && Pct(ValueAt(series.value, idx), ValueAt(series.value, idx - 12)).Some? ==>
              |lines| > 0 && lines[|lines| - 1].YearChange?
  {
    if series.None? then []
    else
      var s := series.value;
      var curr := ValueAt(s, idx);
      var prev := if idx > 0 then ValueAt(s, idx - 1) else None;
      var mom := Pct(curr, prev);
      var j := idx - 12;
      var prev12 := if j >= 0 then ValueAt(s, j) else None;
      var yoy := Pct(curr, prev12);
      (if mom.Some? then [MonthChange(mom.value)] else []) +
      (if yoy.Some? then [YearChange(yoy.value, At(labels, j))] else [])
  }

  /** Where the hovered series has no value there are no tooltip lines. */
  lemma NoLinesWithoutValue(labels: seq<string>, s: seq<Option<real>>, idx: int)
    requires ValueAt(s, idx).None?
    ensures AfterBody(labels, Some(s), idx) == []
  {
  }

  // ---------------------------------------------------------------------
  // applyRange: slicing and padding
  // ---------------------------------------------------------------------

  /** `arr.slice(start)` */
  function SliceFrom<T>(s: seq<T>, start: nat): (r: seq<T>)
    ensures start <= |s| ==> r == s[start..]
    ensures start > |s| ==> r == []
  {
    if start <= |s| then s[start..] else []
  }

  /** `Array(n).fill(null)` */
  function Nulls(n: nat): (r: seq<Option<real>>)
    ensures |r| == n && forall i :: 0 <= i < n ==> r[i].None?
  {
    seq(n, _ => None)
  }

  /**
   * The history series padded over the forecast and the forecast series
   * padded over the history cover the same labels, never both with a value.
   */
  lemma {:induction false} PaddingAligned(hist: seq<Option<real>>, fut: seq<Option<real>>)
    ensures var actual := hist + Nulls(|fut|);
            var fore := Nulls(|hist|) + fut;
            |actual| == |fore| == |hist| + |fut| &&
            (forall i :: 0 <= i < |hist| ==> actual[i] == hist[i] && fore[i].None?) &&
            (forall i :: |hist| <= i < |actual| ==> actual[i].None? && fore[i] == fut[i - |hist|])
  {
  }

  /** `Array.isArray(x) ? x : []` */
  function ArrayOr<T>(x: Option<seq<T>>): (r: seq<T>)
    ensures x.Some? ==> r == x.value
    ensures x.None? ==> r == []
  {
    if x.Some? then x.value else []
  }

  /**
   * The wage chart and the generic BCI/PPI chart: a history line and a
   * forecast line over the history labels of the chosen range followed by
   * the forecast labels; the tooltip works on history and forecast joined.
   */
  class ForecastChart {
    const fullLabels: seq<string>
    const fullValues: seq<Option<real>>
    const futLabels: seq<string>
    const futValues: seq<Option<real>>
    var labels: seq<string>
    var actual: seq<Option<real>>
    var fore: seq<Option<real>>
    var combined: seq<Option<real>>

    /** With matching label and value arrays, both lines and the tooltip series have one entry per label. */
    predicate Aligned()
      reads this
    {
      |fullLabels| == |fullValues| && |futLabels| == |futValues| ==>
        |actual| == |labels| && |fore| == |labels| && |combined| == |labels|
    }

    /** `initWageChart` / `initLineForecastChart`: the chart, shown over `initialRange`. */
    constructor (fullLabels: Option<seq<string>>, fullValues: Option<seq<Option<real>>>,
                 futLabels: Option<seq<string>>, futValues: Option<seq<Option<real>>>, initialRange: string)
      ensures this.fullLabels == ArrayOr(fullLabels) && this.fullValues == ArrayOr(fullValues)
      ensures this.futLabels == ArrayOr(futLabels) && this.futValues == ArrayOr(futValues)
      ensures Aligned() && Shows(initialRange)
    {
      this.fullLabels := ArrayOr(fullLabels);
      this.fullValues := ArrayOr(fullValues);
      this.futLabels := ArrayOr(futLabels);
      this.futValues := ArrayOr(futValues);
      labels, actual, fore, combined := [], [], [], [];
      new;
      ApplyRange(initialRange);
    }

    /** The chart's data after `applyRange(range)`. */
    predicate Shows(range: string)
      reads this
    {
      var start := SliceStartOf(fullLabels, range);
      var hist := SliceFrom(fullValues, start);
      && labels == SliceFrom(fullLabels, start) + futLabels
      && actual == hist + Nulls(|futValues|)
      && fore == Nulls(|hist|) + futValues
      && combined == hist + futValues
    }

    /** `applyRange(range)` */
    method ApplyRange(range: string)
      modifies this
      ensures Shows(range) && Aligned()
    {
      var start := SliceStart(fullLabels, range);
      var histL := SliceFrom(fullLabels, start);
      var histV := SliceFrom(fullValues, start);
      labels := histL + futLabels;
      actual := histV + Nulls(|futValues|);
      fore := Nulls(|histV|) + futValues;
      combined := histV + futValues;
    }
  }

  // ---------------------------------------------------------------------
  // The CPI chart, with its optional sub-series
  // ---------------------------------------------------------------------

  const TotalKey := "__TOTAL__"
  const TotalForeKey := "__TOTAL_FORE__"

  /** One entry of `baseDatasets`: its key, its legend label and its full history. */
  datatype DatasetSpec = DatasetSpec(key: string, legend: string, baseSeries: seq<Option<real>>)

  /** A sub-series from the page: its code and its legend label. */
  datatype SubMeta = SubMeta(code: string, legend: string)

  /** `baseDatasets`: the total, the total's forecast, then one hidden dataset per sub-series. */
  function BaseDatasets(fullValues: seq<Option<real>>, subMeta: seq<SubMeta>,
                        subSeries: map<string, seq<Option<real>>>): (ds: seq<DatasetSpec>)
    ensures |ds| == 2 + |subMeta|
    ensures ds[0].key == TotalKey && ds[0].baseSeries == fullValues
    ensures ds[1].key == TotalForeKey && ds[1].baseSeries == fullValues
    ensures forall i :: 0 <= i < |subMeta| ==>
              ds[i + 2].key == "SUB:" + subMeta[i].code && ds[i + 2].legend == subMeta[i].legend &&
              ds[i + 2].baseSeries == (if subMeta[i].code in subSeries then subSeries[subMeta[i].code] else [])
  {
    [DatasetSpec(TotalKey, "VNV vísitala", fullValues),
     DatasetSpec(TotalForeKey, "Spáð þróun", fullValues)] +
    seq(|subMeta|, i requires 0 <= i < |subMeta| =>
      DatasetSpec("SUB:" + subMeta[i].code, subMeta[i].legend,
                  if subMeta[i].code in subSeries then subSeries[subMeta[i].code] else []))
  }

  /** `ds.data` for one dataset: the total and the sub-series padded over the forecast, the forecast over the history. */
  function DataFor(spec: DatasetSpec, start: nat, futValues: seq<Option<real>>): seq<Option<real>> {
    var base := SliceFrom(spec.baseSeries, start);
    if spec.key == TotalForeKey then Nulls(|base|) + futValues else base + Nulls(|futValues|)
  }

  /** `combinedForTooltip[ds.legend]`: the totals joined to the forecast, a sub-series joined to nulls. */
  function TooltipFor(spec: DatasetSpec, start: nat, futValues: seq<Option<real>>): seq<Option<real>> {
    var base := SliceFrom(spec.baseSeries, start);
    if spec.key == TotalKey || spec.key == TotalForeKey then base + futValues else base + Nulls(|futValues|)
  }

  /** `combinedForTooltip` after the datasets in order; a later label overwrites an earlier one. */
  function TooltipMap(specs: seq<DatasetSpec>, start: nat, futValues: seq<Option<real>>): map<string, seq<Option<real>>> {
    if specs == [] then map[]
    else
      var last := specs[|specs| - 1];
      TooltipMap(specs[..|specs| - 1], start, futValues)[last.legend := TooltipFor(last, start, futValues)]
  }

  /** `seriesFor(label)` finds a series exactly for the labels of the datasets. */
  lemma {:induction false} TooltipMapKeys(specs: seq<DatasetSpec>, start: nat, futValues: seq<Option<real>>, l: string)
    ensures l in TooltipMap(specs, start, futValues) <==> exists i :: 0 <= i < |specs| && specs[i].legend == l
  {
    if specs != [] {
      var n := |specs| - 1;
      var init := specs[..n];
      TooltipMapKeys(init, start, futValues, l);
      if specs[n].legend != l {
        if exists i :: 0 <= i < |specs| && specs[i].legend == l {
          var i :| 0 <= i < |specs| && specs[i].legend == l;
          assert init[i].legend == l;
        }
        if exists i :: 0 <= i < |init| && init[i].legend == l {
          var i :| 0 <= i < |init| && init[i].legend == l;
          assert specs[i].legend == l;
        }
      }
    }
  }

  /** For a label, `seriesFor` gives the tooltip series of the last dataset that has it. */
  lemma {:induction false} TooltipMapLast(specs: seq<DatasetSpec>, start: nat, futValues: seq<Option<real>>, i: nat)
    requires i < |specs|
    requires forall k :: i < k < |specs| ==> specs[k].legend != specs[i].legend
    ensures var m := TooltipMap(specs, start, futValues);
            specs[i].legend in m && m[specs[i].legend] == TooltipFor(specs[i], start, futValues)
  {
    var n := |specs| - 1;
    if i < n {
      var init := specs[..n];
      assert init[i] == specs[i];
      TooltipMapLast(init, start, futValues, i);
    }
  }

  /**
   * The tooltip series of a sub-series is null over the whole forecast, so
   * hovering the forecast range of a sub-series shows no change lines.
   */
  lemma SubSeriesQuietOverForecast(labels: seq<string>, spec: DatasetSpec, start: nat,
                                   futValues: seq<Option<real>>, idx: int)
    requires spec.key != TotalKey && spec.key != TotalForeKey
    requires |SliceFrom(spec.baseSeries, start)| <= idx
    ensures AfterBody(labels, Some(TooltipFor(spec, start, futValues)), idx) == []
  {
    var s := TooltipFor(spec, start, futValues);
    var base := SliceFrom(spec.baseSeries, start);
    assert ValueAt(s, idx).None? by {
      if 0 <= idx < |s| {
        assert s[idx] == Nulls(|futValues|)[idx - |base|];
      }
    }
    NoLinesWithoutValue(labels, s, idx);
  }

  /** `initCPIChart`: the CPI chart with its datasets, shown over `initialRange`. */
  class CpiChart {
    const fullLabels: seq<string>
    const futLabels: seq<string>
    const futValues: seq<Option<real>>
    const datasets: seq<DatasetSpec>
    var labels: seq<string>
    var data: seq<seq<Option<real>>>
    var tooltip: map<string, seq<Option<real>>>

    constructor (fullLabels: Option<seq<string>>, fullValues: Option<seq<Option<real>>>,
                 futLabels: Option<seq<string>>, futValues: Option<seq<Option<real>>>,
                 subMeta: seq<SubMeta>, subSeries: map<string, seq<Option<real>>>, initialRange: string)
      ensures this.fullLabels == ArrayOr(fullLabels) && this.futLabels == ArrayOr(futLabels)
      ensures this.futValues == ArrayOr(futValues)
      ensures datasets == BaseDatasets(ArrayOr(fullValues), subMeta, subSeries)
      ensures Shows(initialRange)
    {
      this.fullLabels := ArrayOr(fullLabels);
      this.futLabels := ArrayOr(futLabels);
      this.futValues := ArrayOr(futValues);
      datasets := BaseDatasets(ArrayOr(fullValues), subMeta, subSeries);
      labels, data, tooltip := [], [], map[];
      new;
      ApplyRange(initialRange);
    }

    /** The chart's data after `applyRange(range)`. */
    predicate Shows(range: string)
      reads this
    {
      var start := SliceStartOf(fullLabels, range);
      && labels == SliceFrom(fullLabels, start) + futLabels
      && |data| == |datasets|
      && (forall i :: 0 <= i < |datasets| ==> data[i] == DataFor(datasets[i], start, futValues))
      && tooltip == TooltipMap(datasets, start, futValues)
    }

    /** `applyRange(range)`: every dataset re-sliced, then the tooltip's series replaced. */
    method ApplyRange(range: string)
      modifies this
      ensures Shows(range)
    {
      var start := SliceStart(fullLabels, range);
      labels := SliceFrom(fullLabels, start) + futLabels;
      data, tooltip := Reslice(datasets, start, futValues);
    }
  }

  /** The `forEach` over the datasets in `applyRange`: each one's data and its tooltip series. */
  method Reslice(specs: seq<DatasetSpec>, start: nat, futValues: seq<Option<real>>)
    returns (data: seq<seq<Option<real>>>, combined: map<string, seq<Option<real>>>)
    ensures |data| == |specs|
    ensures forall i :: 0 <= i < |specs| ==> data[i] == DataFor(specs[i], start, futValues)
    ensures combined == TooltipMap(specs, start, futValues)
  {
    data, combined := [], map[];
    for idx := 0 to |specs|
      invariant data == DataList(specs[..idx], start, futValues)
      invariant combined == TooltipMap(specs[..idx], start, futValues)
    {
      var spec := specs[idx];
      TooltipMapStep(specs, idx, start, futValues);
      DataListStep(specs, idx, start, futValues);
      data := data + [DataFor(spec, start, futValues)];
      combined := combined[spec.legend := TooltipFor(spec, start, futValues)];
    }
    assert specs[..|specs|] == specs;
    DataListAt(specs, start, futValues);
  }

  /** The data arrays of the datasets, in order. */
  function DataList(specs: seq<DatasetSpec>, start: nat, futValues: seq<Option<real>>): seq<seq<Option<real>>> {
    if specs == [] then []
    else DataList(specs[..|specs| - 1], start, futValues) + [DataFor(specs[|specs| - 1], start, futValues)]
  }

  lemma DataListStep(specs: seq<DatasetSpec>, idx: nat, start: nat, futValues: seq<Option<real>>)
    requires idx < |specs|
    ensures DataList(specs[..idx + 1], start, futValues)
         == DataList(specs[..idx], start, futValues) + [DataFor(specs[idx], start, futValues)]
  {
    assert specs[..idx + 1][..idx] == specs[..idx];
  }

  /** Each dataset gets its own data array. */
  lemma {:induction false} DataListAt(specs: seq<DatasetSpec>, start: nat, futValues: seq<Option<real>>)
    ensures |DataList(specs, start, futValues)| == |specs|
    ensures forall i :: 0 <= i < |specs| ==> DataList(specs, start, futValues)[i] == DataFor(specs[i], start, futValues)
  {
    if specs != [] {
      var n := |specs| - 1;
      var init := specs[..n];
      var rest := DataList(init, start, futValues);
      DataListAt(init, start, futValues);
      assert DataList(specs, start, futValues) == rest + [DataFor(specs[n], start, futValues)];
      forall i | 0 <= i < |specs|
        ensures DataList(specs, start, futValues)[i] == DataFor(specs[i], start, futValues)
      {
        if i < n {
          assert specs[i] == init[i];
        }
      }
    }
  }

  /** One more dataset writes its own label's entry over the map of the earlier ones. */
  lemma TooltipMapStep(specs: seq<DatasetSpec>, idx: nat, start: nat, futValues: seq<Option<real>>)
    requires idx < |specs|
    ensures TooltipMap(specs[..idx + 1], start, futValues)
         == TooltipMap(specs[..idx], start, futValues)[specs[idx].legend := TooltipFor(specs[idx], start, futValues)]
  {
    assert specs[..idx + 1][..idx] == specs[..idx];
  }
}
