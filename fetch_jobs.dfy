/**
 * The fetch-and-store jobs: replace-or-insert of the actuals by their
 * unique key, and one forecast run per job whose points all belong to it.
 * The CPI job writes the `cpi_actuals` tables, the wage job the wage
 * tables, and the combined job both in one transaction.
 */
module FetchJobs {
  import opened Wrappers
  import opened Text
  import opened Calendar
  import opened PxData
  import opened Numbers
  import opened Trend
  import opened CpiSource
  import opened CpiPipeline
  import opened WagesPipeline
  import opened Store

  // ---------------------------------------------------------------------
  // CPI actuals
  // ---------------------------------------------------------------------

  /** The write each frame row makes: its date, its level and its change, NaN stored as None. */
  function ActualEntries(rows: seq<CpiRow>): (kvs: seq<(Month, CpiActual)>)
    ensures |kvs| == |rows|
    ensures forall i :: 0 <= i < |rows| ==>
      kvs[i] == (rows[i].date, CpiActual(rows[i].cpi, StoredChange(rows[i].monthlyChange)))
  {
    seq(|rows|, i requires 0 <= i < |rows| =>
      (rows[i].date, CpiActual(rows[i].cpi, StoredChange(rows[i].monthlyChange))))
  }

  /**
   * `upsert_actuals` / `upsert_cpi`: for each row, the row of its date is
   * updated or added; nothing else changes.
   */
  method UpsertActuals(store: CpiStore, rows: seq<CpiRow>)
    modifies store
    requires store.Valid()
    ensures store.Valid()
    ensures store.actuals == Upserted(old(store.actuals), ActualEntries(rows))
    ensures store.runs == old(store.runs) && store.points == old(store.points)
  {
    var kvs := ActualEntries(rows);
    for i := 0 to |rows|
      invariant store.Valid()
      invariant store.actuals == Upserted(old(store.actuals), kvs[..i])
      invariant store.runs == old(store.runs) && store.points == old(store.points)
    {
      var r := rows[i];
      store.PutActual(r.date, CpiActual(r.cpi, StoredChange(r.monthlyChange)));
      assert kvs[..i + 1] == kvs[..i] + [kvs[i]];
    }
    assert kvs[..|rows|] == kvs;
  }

  /**
   * After the upsert there is one row per date: a date of the frame holds
   * the level and change of its last row, a missing change as None; any
   * other date keeps its row.
   */
  lemma UpsertActualsRows(m: map<Month, CpiActual>, rows: seq<CpiRow>, d: Month)
    ensures d in Upserted(m, ActualEntries(rows)) <==> d in m || exists i :: 0 <= i < |rows| && rows[i].date == d
    ensures (forall i :: 0 <= i < |rows| ==> rows[i].date != d) && d in m ==>
      Upserted(m, ActualEntries(rows))[d] == m[d]
    ensures forall i :: 0 <= i < |rows| && rows[i].date == d && (forall j :: i < j < |rows| ==> rows[j].date != d) ==>
      var a := Upserted(m, ActualEntries(rows))[d];
      a.cpi == rows[i].cpi && (a.monthlyChange.None? <==> rows[i].monthlyChange.NaN?)
  {
    var kvs := ActualEntries(rows);
    UpsertedSpec(m, kvs, d);
    assert forall i :: 0 <= i < |rows| ==> kvs[i].0 == rows[i].date;
  }

  /** `notes or default`: a missing or empty note falls back to the default. */
  function NotesOr(notes: Option<string>, default: string): (r: string)
    ensures notes.Some? && notes.value != "" ==> r == notes.value
    ensures notes.None? || notes.value == "" ==> r == default
  {
    if notes.Some? && notes.value != "" then notes.value else default
  }

  /**
   * `save_forecast`: a run with the horizon and the notes (default
   * "linear_reg") is flushed to get its id, then one point per forecast
   * pair is added under that id, which is returned.
   */
  method SaveForecast(store: CpiStore, futures: seq<(Month, real)>, monthsPredict: int, notes: Option<string>)
    returns (id: nat)
    modifies store
    requires store.Valid()
    ensures store.Valid()
    ensures id == FreshId(old(store.runs).Keys)
    ensures store.runs == old(store.runs)[id := Run(None, monthsPredict, NotesOr(notes, "linear_reg"))]
    ensures store.points == old(store.points) + PointsFor(id, (), futures)
    ensures OfRun(store.points, id) == PointsFor(id, (), futures)
    ensures store.actuals == old(store.actuals)
  {
    NewRunOwnsItsPoints(store.points, store.runs.Keys, (), futures);
    id := store.AddRun(Run(None, monthsPredict, NotesOr(notes, "linear_reg")));
    store.AddPoints(id, futures);
  }

  /**
   * `save_cpi_forecast`: a run with notes "linear_reg_24m" is flushed, then
   * its points are exactly the pairs of the anchored trend fitted on the
   * given rows. When the trend raises (a horizon of zero or less on rows
   * to fit) no point is added and `ok` is false: the caller rolls the
   * session back.
   */
  method SaveCpiForecast(store: CpiStore, rows: seq<CpiRow>, months: int, fit: Fit) returns (ok: bool)
    modifies store
    requires store.Valid()
    ensures store.Valid()
    ensures ok <==> ComputeTrend(rows, months, fit).Some?
    ensures var id := FreshId(old(store.runs).Keys);
            store.runs == old(store.runs)[id := Run(None, months, "linear_reg_24m")]
    ensures ok ==>
            var id := FreshId(old(store.runs).Keys);
            store.points == old(store.points) + PointsFor(id, (), ComputeTrend(rows, months, fit).value) &&
            OfRun(store.points, id) == PointsFor(id, (), ComputeTrend(rows, months, fit).value)
    ensures !ok ==> store.points == old(store.points)
    ensures store.actuals == old(store.actuals)
  {
    var id := store.AddRun(Run(None, months, "linear_reg_24m"));
    var futures := ComputeTrend(rows, months, fit);
    if futures.None? {
      return false;
    }
    NewRunOwnsItsPoints(old(store.points), old(store.runs).Keys, (), futures.value);
    store.AddPoints(id, futures.value);
    return true;
  }

  // ---------------------------------------------------------------------
  // Wage actuals
  // ---------------------------------------------------------------------

  /** The write each `(date, category, value)` row makes, keyed by (date, category). */
  function WageEntries(rows: seq<(Month, string, real)>): (kvs: seq<((Month, string), real)>)
    ensures |kvs| == |rows|
    ensures forall i :: 0 <= i < |rows| ==> kvs[i] == ((rows[i].0, rows[i].1), rows[i].2)
  {
    seq(|rows|, i requires 0 <= i < |rows| => ((rows[i].0, rows[i].1), rows[i].2))
  }

  /** `upsert_wage_actuals` / `upsert_wages`: each row updates or adds the row of its (date, category). */
  method UpsertWages(store: IndexStore, rows: seq<(Month, string, real)>)
    modifies store
    requires store.Valid()
    ensures store.Valid()
    ensures store.actuals == Upserted(old(store.actuals), WageEntries(rows))
    ensures store.runs == old(store.runs) && store.points == old(store.points)
  {
    var kvs := WageEntries(rows);
    for i := 0 to |rows|
      invariant store.Valid()
      invariant store.actuals == Upserted(old(store.actuals), kvs[..i])
      invariant store.runs == old(store.runs) && store.points == old(store.points)
    {
      store.PutActual(rows[i].0, rows[i].1, rows[i].2);
      assert kvs[..i + 1] == kvs[..i] + [kvs[i]];
    }
    assert kvs[..|rows|] == kvs;
  }

  /** One row per (date, category), the latest value winning; other keys keep their value. */
  lemma UpsertWagesRows(m: map<(Month, string), real>, rows: seq<(Month, string, real)>, k: (Month, string))
    ensures k in Upserted(m, WageEntries(rows)) <==>
      k in m || exists i :: 0 <= i < |rows| && (rows[i].0, rows[i].1) == k
    ensures (forall i :: 0 <= i < |rows| ==> (rows[i].0, rows[i].1) != k) && k in m ==>
      Upserted(m, WageEntries(rows))[k] == m[k]
    ensures forall i :: 0 <= i < |rows| && (rows[i].0, rows[i].1) == k &&
                        (forall j :: i < j < |rows| ==> (rows[j].0, rows[j].1) != k) ==>
      Upserted(m, WageEntries(rows))[k] == rows[i].2
  {
    var kvs := WageEntries(rows);
    UpsertedSpec(m, kvs, k);
    assert forall i :: 0 <= i < |rows| ==> kvs[i].0 == (rows[i].0, rows[i].1);
  }

  // ---------------------------------------------------------------------
  // Wage forecast
  // ---------------------------------------------------------------------

  /** The categories of the frame. */
  function CategoriesOf(rows: seq<(Month, string, real)>): (cs: set<string>)
    ensures forall c :: c in cs <==> exists i :: 0 <= i < |rows| && rows[i].1 == c
  {
    set i | 0 <= i < |rows| :: rows[i].1
  }

  /** One category's `(date, value)` pairs, in frame order. */
  function GroupRows(rows: seq<(Month, string, real)>, category: string): (g: seq<(Month, Option<real>)>)
    ensures |g| <= |rows|
    ensures forall k :: 0 <= k < |g| ==> g[k].1.Some?
  {
    if rows == [] then []
    else
      var last := rows[|rows| - 1];
      GroupRows(rows[..|rows| - 1], category) + if last.1 == category then [(last.0, Some(last.2))] else []
  }

  /** A category's group holds exactly that category's rows. */
  lemma {:induction false} GroupRowsSpec(rows: seq<(Month, string, real)>, category: string, d: Month, v: real)
    ensures (d, Some(v)) in GroupRows(rows, category) <==> (d, category, v) in rows
  {
    if rows != [] {
      var init := rows[..|rows| - 1];
      GroupRowsSpec(init, category, d, v);
      assert rows == init + [rows[|rows| - 1]];
    }
  }

  /** `sub.set_index("date")["value"]` for one category, as a series by month. */
  function GroupSeries(rows: seq<(Month, string, real)>, category: string): map<Month, Option<real>> {
    Upserted(map[], GroupRows(rows, category))
  }

  /** Writes of present values only leave present values. */
  lemma {:induction false} UpsertedPresent(g: seq<(Month, Option<real>)>)
    requires forall k :: 0 <= k < |g| ==> g[k].1.Some?
    ensures forall d :: d in Upserted(map[], g) ==> Upserted(map[], g)[d].Some?
  {
    if g != [] {
      UpsertedPresent(g[..|g| - 1]);
    }
  }

  /**
   * Every category of the frame has a value to fit on, so a horizon of zero
   * or less makes its forecast raise.
   */
  lemma GroupForecastRaises(rows: seq<(Month, string, real)>, category: string, months: int, fit: Fit)
    requires category in CategoriesOf(rows) && months <= 0
    ensures ComputeForecast(GroupSeries(rows, category), months, 24, fit).None?
  {
    var i :| 0 <= i < |rows| && rows[i].1 == category;
    var g := GroupRows(rows, category);
    GroupRowsSpec(rows, category, rows[i].0, rows[i].2);
    var k :| 0 <= k < |g| && g[k] == (rows[i].0, Some(rows[i].2));
    UpsertedSpec(map[], g, rows[i].0);
    UpsertedPresent(g);
    var series := GroupSeries(rows, category);
    assert rows[i].0 in Present(series);
  }

  /** `compute_forecast(ser, months=months)` with its default window of 24, which is defined for a positive horizon. */
  function GroupForecast(rows: seq<(Month, string, real)>, category: string, months: int, fit: Fit): seq<(Month, real)>
    requires months > 0
  {
    ComputeForecastDefined(GroupSeries(rows, category), months, 24, fit);
    ComputeForecast(GroupSeries(rows, category), months, 24, fit).value
  }

  /** Each category's forecast, as `save_wage_forecast` computes it over a positive horizon. */
  function WageForecasts(rows: seq<(Month, string, real)>, months: int, fit: Fit): string -> seq<(Month, real)>
    requires months > 0
  {
    c => GroupForecast(rows, c, months, fit)
  }

  /** The points of one shared run: each category's forecast, tagged with the run and the category. */
  function GroupPoints(id: nat, cats: seq<string>, forecast: string -> seq<(Month, real)>): (ps: seq<Point<string>>)
    ensures forall i :: 0 <= i < |ps| ==> ps[i].runId == id
  {
    if cats == [] then []
    else
      var c := cats[|cats| - 1];
      GroupPoints(id, cats[..|cats| - 1], forecast) + PointsFor(id, c, forecast(c))
  }

  /**
   * Each category group's points are that category's forecast and nothing
   * else: the points of a listed category are exactly its forecast, and an
   * unlisted category has none.
   */
  lemma {:induction false} GroupPointsOfCategory(id: nat, cats: seq<string>, forecast: string -> seq<(Month, real)>, c: string)
    requires forall i, j :: 0 <= i < j < |cats| ==> cats[i] != cats[j]
    ensures OfCategory(GroupPoints(id, cats, forecast), c) == if c in cats then PointsFor(id, c, forecast(c)) else []
  {
    if cats != [] {
      var n := |cats| - 1;
      DistinctPrefix(cats, n);
      GroupPointsOfCategory(id, cats[..n], forecast, c);
      GroupPointsOfCategoryLast(id, cats, forecast, c);
    }
  }

  /** The induction step of `GroupPointsOfCategory`: the last category's group joins the earlier ones. */
  lemma GroupPointsOfCategoryLast(id: nat, cats: seq<string>, forecast: string -> seq<(Month, real)>, c: string)
    requires cats != []
    requires forall i, j :: 0 <= i < j < |cats| ==> cats[i] != cats[j]
    requires var init := cats[..|cats| - 1];
             OfCategory(GroupPoints(id, init, forecast), c) == if c in init then PointsFor(id, c, forecast(c)) else []
    ensures OfCategory(GroupPoints(id, cats, forecast), c) == if c in cats then PointsFor(id, c, forecast(c)) else []
  {
    var n := |cats| - 1;
    var init := cats[..n];
    var last := cats[n];
    var before := GroupPoints(id, init, forecast);
    var added := PointsFor(id, last, forecast(last));
    GroupPointsUnfold(id, cats, forecast);
    OfCategoryAppend(before, added, c);
    OfCategoryPointsFor(id, last, forecast(last), c);
    if c == last {
      LastNotInPrefix(cats);
      assert OfCategory(before, c) + OfCategory(added, c) == [] + added;
    } else {
      MemberOfPrefix(cats, c);
    }
  }

  lemma GroupPointsUnfold(id: nat, cats: seq<string>, forecast: string -> seq<(Month, real)>)
    requires cats != []
    ensures GroupPoints(id, cats, forecast)
         == GroupPoints(id, cats[..|cats| - 1], forecast) + PointsFor(id, cats[|cats| - 1], forecast(cats[|cats| - 1]))
  {
  }

  /** Apart from the last element, membership in a list is membership in its prefix. */
  lemma MemberOfPrefix(cats: seq<string>, c: string)
    requires cats != [] && c != cats[|cats| - 1]
    ensures c in cats <==> c in cats[..|cats| - 1]
  {
    assert cats == cats[..|cats| - 1] + [cats[|cats| - 1]];
  }

  /** In a list without repeats the last element does not occur earlier. */
  lemma LastNotInPrefix(cats: seq<string>)
    requires cats != []
    requires forall i, j :: 0 <= i < j < |cats| ==> cats[i] != cats[j]
    ensures cats[|cats| - 1] !in cats[..|cats| - 1]
  {
    var n := |cats| - 1;
    forall k | 0 <= k < n
      ensures cats[..n][k] != cats[n]
    {
    }
  }

  /** A prefix of a list without repeats has no repeats. */
  lemma DistinctPrefix(cats: seq<string>, n: nat)
    requires n <= |cats|
    requires forall i, j :: 0 <= i < j < |cats| ==> cats[i] != cats[j]
    ensures forall i, j :: 0 <= i < j < n ==> cats[..n][i] != cats[..n][j]
  {
  }

  /**
   * `save_wage_forecast`: one run shared by every category, flushed for its
   * id; then, category by category in sorted order, that category's
   * forecast as points carrying the run id and the category. The id is
   * returned. Over a horizon of zero or less the first category's forecast
   * raises before any point is added (`GroupForecastRaises`), and `ok` is
   * false unless the frame has no category at all.
   */
  method SaveWageForecast(store: IndexStore, rows: seq<(Month, string, real)>, months: int, notes: string, fit: Fit)
    returns (id: nat, ok: bool)
    modifies store
    requires store.Valid()
    ensures store.Valid()
    ensures ok <==> months > 0 || CategoriesOf(rows) == {}
    ensures id == FreshId(old(store.runs).Keys)
    ensures store.runs == old(store.runs)[id := Run(None, months, notes)]
    ensures months > 0 ==>
      store.points == old(store.points) + GroupPoints(id, SortedStrings(CategoriesOf(rows)), WageForecasts(rows, months, fit)) &&
      OfRun(store.points, id) == GroupPoints(id, SortedStrings(CategoriesOf(rows)), WageForecasts(rows, months, fit))
    ensures months <= 0 ==> store.points == old(store.points)
    ensures store.actuals == old(store.actuals)
  {
    var before := store.points;
    id := store.AddRun(Run(None, months, notes));
    var cats := SortedStrings(CategoriesOf(rows));
    if months <= 0 {
      return id, CategoriesOf(rows) == {};
    }
    AddGroups(store, id, cats, WageForecasts(rows, months, fit));
    GroupPointsOwned(before, old(store.runs).Keys, cats, WageForecasts(rows, months, fit));
    ok := true;
  }

  /** The loop over the category groups: each group's forecast, tagged with the run and its category. */
  method AddGroups(store: IndexStore, id: nat, cats: seq<string>, forecast: string -> seq<(Month, real)>)
    modifies store
    ensures store.points == old(store.points) + GroupPoints(id, cats, forecast)
    ensures store.runs == old(store.runs) && store.actuals == old(store.actuals)
  {
    for k := 0 to |cats|
      invariant store.points == old(store.points) + GroupPoints(id, cats[..k], forecast)
      invariant store.runs == old(store.runs) && store.actuals == old(store.actuals)
    {
      store.AddPoints(id, cats[k], forecast(cats[k]));
      assert cats[..k + 1][..k] == cats[..k];
    }
    assert cats[..|cats|] == cats;
  }

  /** Before the run exists no point refers to it, so the shared run's points are exactly the groups' points. */
  lemma GroupPointsOwned(before: seq<Point<string>>, ids: set<nat>, cats: seq<string>, forecast: string -> seq<(Month, real)>)
    requires Owned(before, ids)
    ensures var id := FreshId(ids);
            OfRun(before + GroupPoints(id, cats, forecast), id) == GroupPoints(id, cats, forecast)
    ensures Owned(before + GroupPoints(FreshId(ids), cats, forecast), ids + {FreshId(ids)})
  {
    var id := FreshId(ids);
    var ps := GroupPoints(id, cats, forecast);
    OfRunAppend(before, ps, id);
    OfRunAbsent(before, id);
    OfRunAllOf(ps, id);
  }

  /** A sequence whose points all belong to run `id` is its own set of run points. */
  lemma {:induction false} OfRunAllOf<C>(ps: seq<Point<C>>, id: nat)
    requires forall i :: 0 <= i < |ps| ==> ps[i].runId == id
    ensures OfRun(ps, id) == ps
  {
    if ps != [] {
      OfRunAllOf(ps[..|ps| - 1], id);
      assert ps == ps[..|ps| - 1] + [ps[|ps| - 1]];
    }
  }

  // ---------------------------------------------------------------------
  // The jobs
  // ---------------------------------------------------------------------

  /**
   * `fetch_and_store.main` after the fetch and parse: every row is
   * upserted, then one run forecasts 6 months from the last 24 rows. The
   * trend of the module it imports is a parameter here.
   */
  method FetchAndStore(store: CpiStore, frame: seq<CpiRow>, trend: (seq<CpiRow>, int) -> seq<(Month, real)>)
    returns (runId: nat)
    modifies store
    requires store.Valid()
    ensures store.Valid()
    ensures store.actuals == Upserted(old(store.actuals), ActualEntries(frame))
    ensures runId == FreshId(old(store.runs).Keys)
    ensures store.runs == old(store.runs)[runId := Run(None, 6, "linear_reg")]
    ensures store.points == old(store.points) + PointsFor(runId, (), trend(TailWindow(frame, 24), 6))
  {
    UpsertActuals(store, frame);
    var tail := TailWindow(frame, 24);
    runId := SaveForecast(store, trend(tail, 6), 6, None);
  }

  /**
   * `fetch_and_store_wages.main` after the fetch and parse: every row is
   * upserted, then one run with a 12-month horizon and the default notes.
   */
  method FetchAndStoreWages(store: IndexStore, rows: seq<(Month, string, real)>, fit: Fit)
    modifies store
    requires store.Valid()
    ensures store.Valid()
    ensures store.actuals == Upserted(old(store.actuals), WageEntries(rows))
    ensures var id := FreshId(old(store.runs).Keys);
            store.runs == old(store.runs)[id := Run(None, 12, "linear_reg_24m")] &&
            store.points == old(store.points) + GroupPoints(id, SortedStrings(CategoriesOf(rows)), WageForecasts(rows, 12, fit))
  {
    UpsertWages(store, rows);
    var _, _ := SaveWageForecast(store, rows, 12, "linear_reg_24m", fit);
  }

  /** The CPI half of `fetch_all.main`: `upsert_cpi`, then `save_cpi_forecast` on the last 24 rows with a 6-month horizon. */
  method StoreCpiFrame(cpi: CpiStore, frame: seq<CpiRow>, fit: Fit)
    modifies cpi
    requires cpi.Valid()
    ensures cpi.Valid()
    ensures var id := FreshId(old(cpi.runs).Keys);
            cpi.actuals == Upserted(old(cpi.actuals), ActualEntries(frame)) &&
            cpi.runs == old(cpi.runs)[id := Run(None, 6, "linear_reg_24m")] &&
            cpi.points == old(cpi.points) + PointsFor(id, (), ComputeTrend(TailWindow(frame, 24), 6, fit).value)
  {
    UpsertActuals(cpi, frame);
    var _ := SaveCpiForecast(cpi, TailWindow(frame, 24), 6, fit);
  }

  /**
   * `fetch_all.main`: the CPI frame is parsed from the source, upserted and
   * forecast 6 months from its last 24 rows; then the wage rows are
   * upserted and forecast 12 months, exactly as the wage job does. A source
   * that is not a CPI object raises before anything is written, so the
   * rollback leaves both stores as they were.
   */
  method FetchAll(cpi: CpiStore, wages: IndexStore, source: object, wageRows: seq<(Month, string, real)>, fit: Fit)
    returns (ok: bool)
    modifies cpi, wages
    requires cpi.Valid() && wages.Valid()
    ensures cpi.Valid() && wages.Valid()
    ensures ok <==> source is Cpi
    ensures !ok ==>
      cpi.actuals == old(cpi.actuals) && cpi.runs == old(cpi.runs) && cpi.points == old(cpi.points) &&
      wages.actuals == old(wages.actuals) && wages.runs == old(wages.runs) && wages.points == old(wages.points)
    ensures ok ==>
      var frame := WithMonthlyChange(SortedRows(SeriesOf(old((source as Cpi).index), "IS00")));
      var id := FreshId(old(cpi.runs).Keys);
      cpi.actuals == Upserted(old(cpi.actuals), ActualEntries(frame)) &&
      cpi.runs == old(cpi.runs)[id := Run(None, 6, "linear_reg_24m")] &&
      cpi.points == old(cpi.points) + PointsFor(id, (), ComputeTrend(TailWindow(frame, 24), 6, fit).value)
    ensures ok ==>
      var id := FreshId(old(wages.runs).Keys);
      wages.actuals == Upserted(old(wages.actuals), WageEntries(wageRows)) &&
      wages.runs == old(wages.runs)[id := Run(None, 12, "linear_reg_24m")] &&
      wages.points == old(wages.points) + GroupPoints(id, SortedStrings(CategoriesOf(wageRows)), WageForecasts(wageRows, 12, fit))
  {
    var parsed := ParseData(source);
    if parsed.TypeError? {
      return false;
    }
    StoreCpiFrame(cpi, parsed.rows, fit);
    FetchAndStoreWages(wages, wageRows, fit);
    return true;
  }
}
