/**
 * The producer price index pipeline: rows collected category by category
 * from the index's history and ordered by date, and a positional linear
 * forecast over the latest observations.
 */
module PpiPipeline {
  import opened Wrappers
  import opened Calendar
  import opened PxData
  import opened Trend

  /** One row of the frame: `(date, category, value)`. */
  datatype PpiRow = PpiRow(date: Month, category: string, value: real)

  /**
   * `get_historical_values(cat, months=10000)`: the month strings and values
   * the index reports for a category. A value is `None` when `float` rejects
   * it (a missing value or text that is not a number).
   */
  type History = string -> seq<(string, Option<real>)>

  /** Some pair has a month string strptime accepts and a value `float` rejects. */
  predicate Unconvertible(pairs: seq<(string, Option<real>)>) {
    exists k :: 0 <= k < |pairs| && Strptime(pairs[k].0, 'M').Some? && pairs[k].1.None?
  }

  /** `categories or ["PPI"]`: a missing or empty list means the total index. */
  function CategoriesOrDefault(categories: Option<seq<string>>): (cats: seq<string>)
    ensures cats != []
    ensures categories.Some? && categories.value != [] ==> cats == categories.value
    ensures categories.None? || categories.value == [] ==> cats == ["PPI"]
  {
    match categories
    case Some(cs) => if cs != [] then cs else ["PPI"]
    case None => ["PPI"]
  }

  /**
   * The rows one category contributes: its pairs whose month string parses,
   * in order; `float(v)` on such a pair's value raises when it rejects it,
   * and a pair whose month does not parse is skipped before its value is read.
   */
  function CategoryRows(cat: string, pairs: seq<(string, Option<real>)>): (rows: Option<seq<PpiRow>>)
    ensures rows.None? <==> Unconvertible(pairs)
    ensures rows.Some? ==> |rows.value| <= |pairs|
  {
    if pairs == [] then Some([])
    else
      var init := pairs[..|pairs| - 1];
      var p := pairs[|pairs| - 1];
      assert forall k :: 0 <= k < |init| ==> init[k] == pairs[k];
      match CategoryRows(cat, init)
      case None => None
      case Some(rs) =>
        match Strptime(p.0, 'M')
        case None => Some(rs)
        case Some(d) => if p.1.None? then None else Some(rs + [PpiRow(d, cat, p.1.value)])
  }

  /** The rows of every category, category after category; the first raise ends the collection. */
  function Collected(cats: seq<string>, history: History): (r: Option<seq<PpiRow>>)
    ensures r.None? <==> exists k :: 0 <= k < |cats| && Unconvertible(history(cats[k]))
  {
    if cats == [] then Some([])
    else
      var init := cats[..|cats| - 1];
      assert forall k :: 0 <= k < |init| ==> init[k] == cats[k];
      match Collected(init, history)
      case None => None
      case Some(a) =>
        match CategoryRows(cats[|cats| - 1], history(cats[|cats| - 1]))
        case None => None
        case Some(b) => Some(a + b)
  }

  /** A category row is exactly a pair of that category whose month string strptime accepts. */
  lemma {:induction false} CategoryRowsSpec(cat: string, pairs: seq<(string, Option<real>)>, r: PpiRow)
    requires !Unconvertible(pairs)
    ensures r in CategoryRows(cat, pairs).value <==>
      r.category == cat && exists p :: p in pairs && Strptime(p.0, 'M') == Some(r.date) && p.1 == Some(r.value)
  {
    if pairs != [] {
      var init := pairs[..|pairs| - 1];
      var p := pairs[|pairs| - 1];
      assert pairs == init + [p];
      assert !Unconvertible(init) by {
        assert forall k :: 0 <= k < |init| ==> init[k] == pairs[k];
      }
      CategoryRowsSpec(cat, init, r);
      if r.category == cat && Strptime(p.0, 'M') == Some(r.date) && p.1 == Some(r.value) {
        assert r in CategoryRows(cat, pairs).value;
      }
    }
  }

  /** A collected row is exactly a parsable pair of one of the categories. */
  lemma {:induction false} CollectedSpec(cats: seq<string>, history: History, r: PpiRow)
    requires Collected(cats, history).Some?
    ensures r in Collected(cats, history).value <==>
      r.category in cats &&
      exists p :: p in history(r.category) && Strptime(p.0, 'M') == Some(r.date) && p.1 == Some(r.value)
  {
    if cats != [] {
      var init := cats[..|cats| - 1];
      var c := cats[|cats| - 1];
      CollectedSpec(init, history, r);
      CategoryRowsSpec(c, history(c), r);
      assert cats == init + [c];
    }
  }

  // ---------------------------------------------------------------------
  // sort_values("date")
  // ---------------------------------------------------------------------

  predicate DatesNondecreasing(rows: seq<PpiRow>) {
    forall i, j :: 0 <= i < j < |rows| ==> Index(rows[i].date) <= Index(rows[j].date)
  }

  function Insert(r: PpiRow, rows: seq<PpiRow>): (res: seq<PpiRow>)
    ensures |res| == |rows| + 1
    ensures res[0] == r || (|rows| > 0 && res[0] == rows[0])
  {
    if rows == [] then [r]
    else if Index(r.date) <= Index(rows[0].date) then [r] + rows
    else [rows[0]] + Insert(r, rows[1..])
  }

  /** Inserting adds the row and loses none. */
  lemma {:induction false} InsertIsPermutation(r: PpiRow, rows: seq<PpiRow>)
    ensures multiset(Insert(r, rows)) == multiset(rows) + multiset{r}
  {
    if rows != [] && Index(r.date) > Index(rows[0].date) {
      InsertIsPermutation(r, rows[1..]);
      assert rows == [rows[0]] + rows[1..];
    }
  }

  /** Inserting into rows ordered by date keeps them ordered. */
  lemma {:induction false} InsertKeepsOrder(r: PpiRow, rows: seq<PpiRow>)
    requires DatesNondecreasing(rows)
    ensures DatesNondecreasing(Insert(r, rows))
  {
    if rows != [] && Index(r.date) > Index(rows[0].date) {
      var rest := Insert(r, rows[1..]);
      InsertKeepsOrder(r, rows[1..]);
      var res := Insert(r, rows);
      assert res == [rows[0]] + rest;
      assert Index(rows[0].date) <= Index(rest[0].date);
      forall i, j | 0 <= i < j < |res|
        ensures Index(res[i].date) <= Index(res[j].date)
      {
        if i == 0 && j > 1 {
          assert Index(rest[0].date) <= Index(rest[j - 1].date);
        }
      }
    }
  }

  /**
   * An ordering by date. The sort pandas uses is not stable, so only what
   * every such ordering shares is promised: the same rows, dates never
   * decreasing.
   */
  function SortByDate(rows: seq<PpiRow>): (sorted: seq<PpiRow>)
    ensures multiset(sorted) == multiset(rows)
    ensures DatesNondecreasing(sorted)
  {
    if rows == [] then []
    else
      assert rows == [rows[0]] + rows[1..];
      InsertKeepsOrder(rows[0], SortByDate(rows[1..]));
      InsertIsPermutation(rows[0], SortByDate(rows[1..]));
      Insert(rows[0], SortByDate(rows[1..]))
  }

  /**
   * `fetch_ppi_series` after the fetch: every category's parsable pairs,
   * ordered by date, or the raise of the first value `float` rejects.
   */
  method FetchPpiSeries(categories: Option<seq<string>>, history: History) returns (rows: Option<seq<PpiRow>>)
    ensures rows.None? <==> Collected(CategoriesOrDefault(categories), history).None?
    ensures rows.Some? ==> multiset(rows.value) == multiset(Collected(CategoriesOrDefault(categories), history).value)
    ensures rows.Some? ==> DatesNondecreasing(rows.value)
  {
    var cats := CategoriesOrDefault(categories);
    var acc: seq<PpiRow> := [];
    for i := 0 to |cats|
      invariant Collected(cats[..i], history) == Some(acc)
    {
      assert cats[..i + 1][..i] == cats[..i];
      var more := CollectCategory(cats[i], history(cats[i]));
      if more.None? {
        assert Unconvertible(history(cats[..i + 1][i]));
        assert Collected(cats[..i + 1], history).None?;
        assert Unconvertible(history(cats[i]));
        return None;
      }
      acc := acc + more.value;
    }
    assert cats[..|cats|] == cats;
    rows := Some(SortByDate(acc));
  }

  /** The inner loop: one category's pairs whose month string parses, as rows, or the raise. */
  method CollectCategory(cat: string, pairs: seq<(string, Option<real>)>) returns (rows: Option<seq<PpiRow>>)
    ensures rows == CategoryRows(cat, pairs)
  {
    var acc: seq<PpiRow> := [];
    for j := 0 to |pairs|
      invariant CategoryRows(cat, pairs[..j]) == Some(acc)
    {
      assert pairs[..j + 1][..j] == pairs[..j];
      match Strptime(pairs[j].0, 'M') {
        case Some(d) =>
          if pairs[j].1.None? {
            assert Unconvertible(pairs[..j + 1]) by {
              assert pairs[..j + 1][j] == pairs[j];
            }
            assert Unconvertible(pairs) by {
              assert pairs[..j + 1][j] == pairs[j];
            }
            return None;
          }
          acc := acc + [PpiRow(d, cat, pairs[j].1.value)];
        case None =>
      }
    }
    assert pairs[..|pairs|] == pairs;
    rows := Some(acc);
  }

  // ---------------------------------------------------------------------
  // compute_forecast
  // ---------------------------------------------------------------------

  /** `series.dropna()`: the dated values that are present, in the series' order. */
  function Dropna(series: seq<(Month, Option<real>)>): (s: seq<(Month, real)>)
    ensures |s| <= |series|
  {
    if series == [] then []
    else
      var last := series[|series| - 1];
      Dropna(series[..|series| - 1]) + if last.1.Some? then [(last.0, last.1.value)] else []
  }

  /** A kept point is exactly a present value of the series. */
  lemma {:induction false} DropnaSpec(series: seq<(Month, Option<real>)>, x: (Month, real))
    ensures x in Dropna(series) <==> (x.0, Some(x.1)) in series
  {
    if series != [] {
      var init := series[..|series| - 1];
      var last := series[|series| - 1];
      DropnaSpec(init, x);
      assert series == init + [last];
    }
  }

  /** The values the PPI forecast trains on: the latest `window` present values. */
  function PpiTraining(series: seq<(Month, Option<real>)>, window: int): seq<real> {
    TailWindow(Values(Dropna(series)), window)
  }

  /**
   * `compute_forecast`: fewer than two present values give no points; a
   * window that leaves nothing to fit on makes the fit raise, and a horizon
   * of zero or less makes `predict` raise on an empty array (None);
   * otherwise the line fitted on the window, continued for `months` months
   * after the last present date.
   */
  function PpiForecast(series: seq<(Month, Option<real>)>, months: int, window: int, fit: Fit): (r: Option<seq<(Month, real)>>)
    ensures |Dropna(series)| < 2 ==> r == Some([])
    ensures r.None? <==> |Dropna(series)| >= 2 && (|PpiTraining(series, window)| == 0 || months <= 0)
    ensures |Dropna(series)| >= 2 && r.Some? ==>
      months > 0 &&
      r.value == ContinueFit(PpiTraining(series, window), Dropna(series)[|Dropna(series)| - 1].0, months, fit)
  {
    var s := Dropna(series);
    if |s| < 2 then Some([])
    else
      var y := TailWindow(Values(s), window);
      if |y| == 0 || months <= 0 then None else Some(ContinueFit(y, s[|s| - 1].0, months, fit))
  }

  /** With a nonnegative window and a positive horizon the forecast is always defined: the fit has data and `predict` has positions. */
  lemma PpiForecastDefined(series: seq<(Month, Option<real>)>, months: int, window: int, fit: Fit)
    requires window >= 0 && months > 0
    ensures PpiForecast(series, months, window, fit).Some?
  {
  }
}
