/**
 * The building-cost and producer price backfill: every historical value of
 * every listed category is upserted into the index's table, then one run is
 * created and the total category alone is forecast six months ahead from
 * the rows read back from the table.
 */
module BackfillPpiBci {
  import opened Wrappers
  import opened Calendar
  import opened PxData
  import opened Trend
  import opened Store
  import opened PpiPipeline
  import opened FetchJobs

  /** `FORECAST_MONTHS` */
  const ForecastMonths: int := 6

  /** The window `compute_forecast` uses by default. */
  const DefaultWindow: int := 24

  /** The notes of the single run each backfill creates. */
  const BackfillNotes: string := "backfill linear_reg_24m"

  /** `_parse_date`: a "%YM%m" month, or None where strptime raises. */
  function ParseDate(ym: string): (r: Option<Month>)
    ensures r.Some? ==> InDateRange(r.value) && |ym| >= 6 && (ym[4] == 'M' || ym[4] == 'm')
  {
    Strptime(ym, 'M')
  }

  /** A month written as "%YM%m" is parsed back to that month. */
  lemma ParseDateFormat(m: Month)
    requires InDateRange(m)
    ensures ParseDate(FormatWithSeparator(m, 'M')) == Some(m)
  {
    StrptimeFormat(m, 'M');
  }

  /** `get_historical_values(cat, months=10000)`: month strings with values that may be missing. */
  type Readings = string -> seq<(string, Option<real>)>

  /** `ds.list_categories() or [total]` */
  function CategoriesOr(listed: seq<string>, total: string): (cats: seq<string>)
    ensures cats != []
    ensures listed != [] ==> cats == listed
    ensures listed == [] ==> cats == [total]
  {
    if listed != [] then listed else [total]
  }

  /** One reading as the loop takes it: its month and value, or None where it is skipped. */
  function Reading(pair: (string, Option<real>)): Option<(Month, real)> {
    match ParseDate(pair.0)
    case None => None
    case Some(d) => if pair.1.Some? then Some((d, pair.1.value)) else None
  }

  /** The readings of a category, each parsed. */
  function Parsed(pairs: seq<(string, Option<real>)>): (rs: seq<Option<(Month, real)>>)
    ensures |rs| == |pairs|
    ensures forall i :: 0 <= i < |pairs| ==> rs[i] == Reading(pairs[i])
  {
    seq(|pairs|, i requires 0 <= i < |pairs| => Reading(pairs[i]))
  }

  /** The rows of one category from its parsed readings, skipping the None ones, in order. */
  function Collect(cat: string, rs: seq<Option<(Month, real)>>): (rows: seq<(Month, string, real)>)
    ensures |rows| <= |rs|
  {
    if rs == [] then []
    else
      var last := rs[|rs| - 1];
      Collect(cat, rs[..|rs| - 1]) + if last.Some? then [(last.value.0, cat, last.value.1)] else []
  }

  /** The rows the upsert loop writes for one category: those with a parsable month and a value, in order. */
  function Written(cat: string, pairs: seq<(string, Option<real>)>): (rows: seq<(Month, string, real)>)
    ensures |rows| <= |pairs|
  {
    Collect(cat, Parsed(pairs))
  }

  /** A row is collected exactly when its month and value are among the parsed readings. */
  lemma {:induction false} CollectSpec(cat: string, rs: seq<Option<(Month, real)>>, r: (Month, string, real))
    ensures r in Collect(cat, rs) <==> r.1 == cat && Some((r.0, r.2)) in rs
  {
    if rs != [] {
      var init := rs[..|rs| - 1];
      CollectSpec(cat, init, r);
      assert rs == init + [rs[|rs| - 1]];
    }
  }

  /** A row is written exactly when some reading of the category parses to its month and carries its value. */
  lemma WrittenSpec(cat: string, pairs: seq<(string, Option<real>)>, r: (Month, string, real))
    ensures r in Written(cat, pairs) <==>
      r.1 == cat && exists j :: 0 <= j < |pairs| && ParseDate(pairs[j].0) == Some(r.0) && pairs[j].1 == Some(r.2)
  {
    var rs := Parsed(pairs);
    CollectSpec(cat, rs, r);
    if Some((r.0, r.2)) in rs {
      var j :| 0 <= j < |rs| && rs[j] == Some((r.0, r.2));
      assert Reading(pairs[j]) == Some((r.0, r.2));
    }
    if exists j :: 0 <= j < |pairs| && ParseDate(pairs[j].0) == Some(r.0) && pairs[j].1 == Some(r.2) {
      var j :| 0 <= j < |pairs| && ParseDate(pairs[j].0) == Some(r.0) && pairs[j].1 == Some(r.2);
      assert rs[j] == Some((r.0, r.2));
    }
  }

  /** The rows written for every category, category after category. */
  function AllWritten(cats: seq<string>, readings: Readings): (rows: seq<(Month, string, real)>) {
    if cats == [] then []
    else AllWritten(cats[..|cats| - 1], readings) + Written(cats[|cats| - 1], readings(cats[|cats| - 1]))
  }

  /** The table after writing rows one by one, each updating or adding the row of its (date, category). */
  function Upsert(actuals: map<(Month, string), real>, rows: seq<(Month, string, real)>): map<(Month, string), real> {
    Upserted(actuals, WageEntries(rows))
  }

  /** Writing one more row updates or adds that one key. */
  lemma UpsertSnoc(actuals: map<(Month, string), real>, rows: seq<(Month, string, real)>, r: (Month, string, real))
    ensures Upsert(actuals, rows + [r]) == Upsert(actuals, rows)[(r.0, r.1) := r.2]
  {
    var kvs := WageEntries(rows + [r]);
    assert kvs[..|rows|] == WageEntries(rows);
  }

  /** `filter_by(category=cat)` on the actuals, keyed by date. */
  function CategorySeries(actuals: map<(Month, string), real>, cat: string): (s: map<Month, real>)
    ensures forall d :: d in s <==> (d, cat) in actuals
    ensures forall d :: d in s ==> s[d] == actuals[(d, cat)]
  {
    map k | k in actuals && k.1 == cat :: k.0 := actuals[k]
  }

  /** `filter_by(category=cat).order_by(date).all()`: the category's rows in date order. */
  function StoredRows(actuals: map<(Month, string), real>, cat: string): (rows: seq<(Month, real)>)
    ensures AscendingRows(rows)
    ensures forall i :: 0 <= i < |rows| ==> (rows[i].0, cat) in actuals && rows[i].1 == actuals[(rows[i].0, cat)]
    ensures forall d :: (d, cat) in actuals ==> exists i :: 0 <= i < |rows| && rows[i].0 == d
  {
    SortedRows(CategorySeries(actuals, cat))
  }

  /** The three tables of one index. */
  datatype Tables = Tables(actuals: map<(Month, string), real>, runs: map<nat, Run>, points: seq<Point<string>>)

  /**
   * One backfill on the tables: the historical rows upserted, then the
   * run and its forecast.
   */
  function Backfilled(t: Tables, total: string, listed: seq<string>, readings: Readings,
                      forecast: seq<(Month, real)> -> seq<(Month, real)>): Tables
  {
    var actuals := Upsert(t.actuals, AllWritten(CategoriesOr(listed, total), readings));
    Forecasted(t.(actuals := actuals), total, TotalForecast(actuals, total, forecast))
  }

  /**
   * One new run, with the forecast of the total category as its points.
   */
  function Forecasted(t: Tables, total: string, forecast: seq<(Month, real)>): Tables {
    var id := FreshId(t.runs.Keys);
    Tables(t.actuals, t.runs[id := Run(None, ForecastMonths, BackfillNotes)], t.points + PointsFor(id, total, forecast))
  }

  /** The forecast of the total category's stored rows, or nothing with fewer than two of them. */
  function TotalForecast(actuals: map<(Month, string), real>, total: string,
                         forecast: seq<(Month, real)> -> seq<(Month, real)>): seq<(Month, real)> {
    var rows := StoredRows(actuals, total);
    if |rows| < 2 then [] else forecast(rows)
  }

  // ---------------------------------------------------------------------
  // The job on the tables
  // ---------------------------------------------------------------------

  /** The upsert loops over the categories and their readings. */
  method UpsertReadings(store: IndexStore, cats: seq<string>, readings: Readings)
    requires store.Valid()
    modifies store
    ensures store.Valid()
    ensures store.actuals == Upsert(old(store.actuals), AllWritten(cats, readings))
    ensures store.runs == old(store.runs) && store.points == old(store.points)
  {
    for i := 0 to |cats|
      invariant store.Valid()
      invariant store.actuals == Upsert(old(store.actuals), AllWritten(cats[..i], readings))
      invariant store.runs == old(store.runs) && store.points == old(store.points)
    {
      assert cats[..i + 1][..i] == cats[..i];
      UpsertCategory(store, cats[i], readings(cats[i]));
      UpsertAppend(old(store.actuals), AllWritten(cats[..i], readings), Written(cats[i], readings(cats[i])));
    }
    assert cats[..|cats|] == cats;
  }

  /** The readings of one category: an unparsable month or a missing value is skipped. */
  method UpsertCategory(store: IndexStore, cat: string, pairs: seq<(string, Option<real>)>)
    requires store.Valid()
    modifies store
    ensures store.Valid()
    ensures store.actuals == Upsert(old(store.actuals), Written(cat, pairs))
    ensures store.runs == old(store.runs) && store.points == old(store.points)
  {
    var rs := Parsed(pairs);
    for j := 0 to |pairs|
      invariant store.Valid()
      invariant store.actuals == Upsert(old(store.actuals), Collect(cat, rs[..j]))
      invariant store.runs == old(store.runs) && store.points == old(store.points)
    {
      assert rs[..j + 1][..j] == rs[..j];
      var d := ParseDate(pairs[j].0);
      if d.None? || pairs[j].1.None? {
        assert rs[j] == None;
        assert Collect(cat, rs[..j + 1]) == Collect(cat, rs[..j]);
        continue;
      }
      assert rs[j] == Some((d.value, pairs[j].1.value));
      assert Collect(cat, rs[..j + 1]) == Collect(cat, rs[..j]) + [(d.value, cat, pairs[j].1.value)];
      store.PutActual(d.value, cat, pairs[j].1.value);
      UpsertSnoc(old(store.actuals), Collect(cat, rs[..j]), (d.value, cat, pairs[j].1.value));
    }
    assert rs[..|pairs|] == rs;
  }

  /** Writing two batches of rows is writing the first, then the second. */
  lemma {:induction false} UpsertAppend(m: map<(Month, string), real>, xs: seq<(Month, string, real)>,
                                        ys: seq<(Month, string, real)>)
    ensures Upsert(m, xs + ys) == Upsert(Upsert(m, xs), ys)
  {
    if ys == [] {
      assert xs + ys == xs;
      assert WageEntries(ys) == [];
    } else {
      var init := ys[..|ys| - 1];
      var y := ys[|ys| - 1];
      UpsertAppend(m, xs, init);
      assert xs + ys == (xs + init) + [y];
      assert ys == init + [y];
      UpsertSnoc(m, xs + init, y);
      UpsertSnoc(Upsert(m, xs), init, y);
    }
  }

  /**
   * `backfill_bci` / `backfill_ppi` on the tables of one index, with the
   * total category's name and the forecast of its pipeline.
   */
  method Backfill(store: IndexStore, total: string, listed: seq<string>, readings: Readings,
                  forecast: seq<(Month, real)> -> seq<(Month, real)>)
    requires store.Valid()
    modifies store
    ensures store.Valid()
    ensures Tables(store.actuals, store.runs, store.points) ==
      Backfilled(old(Tables(store.actuals, store.runs, store.points)), total, listed, readings, forecast)
  {
    var cats := CategoriesOr(listed, total);
    UpsertReadings(store, cats, readings);
    var id := store.AddRun(Run(None, ForecastMonths, BackfillNotes));
    var rows := StoredRows(store.actuals, total);
    if |rows| < 2 {
      return;
    }
    store.AddPoints(id, total, forecast(rows));
  }

  /** `backfill_bci`: the total category is "BCI"; its forecast comes from the building-cost pipeline. */
  method BackfillBci(store: IndexStore, listed: seq<string>, readings: Readings,
                     bciForecast: seq<(Month, real)> -> seq<(Month, real)>)
    requires store.Valid()
    modifies store
    ensures store.Valid()
    ensures Tables(store.actuals, store.runs, store.points) ==
      Backfilled(old(Tables(store.actuals, store.runs, store.points)), "BCI", listed, readings, bciForecast)
  {
    Backfill(store, "BCI", listed, readings, bciForecast);
  }

  /** `backfill_ppi`: the total category is "PPI", forecast by the producer price pipeline. */
  method BackfillPpi(store: IndexStore, listed: seq<string>, readings: Readings, fit: Fit)
    requires store.Valid()
    modifies store
    ensures store.Valid()
    ensures Tables(store.actuals, store.runs, store.points) ==
      Backfilled(old(Tables(store.actuals, store.runs, store.points)), "PPI", listed, readings, PpiBackfillForecast(fit))
  {
    Backfill(store, "PPI", listed, readings, PpiBackfillForecast(fit));
  }

  /** What a data source yields: the listed categories and the readings of each. */
  datatype Source = Source(listed: seq<string>, readings: Readings)

  /**
   * `main`: both backfills in one session, committed together; a source
   * that raises (None) rolls the session back, so neither table changes.
   */
  method BackfillMain(bci: IndexStore, ppi: IndexStore, bciSource: Option<Source>, ppiSource: Option<Source>,
                      bciForecast: seq<(Month, real)> -> seq<(Month, real)>, fit: Fit) returns (committed: bool)
    requires bci != ppi && bci.Valid() && ppi.Valid()
    modifies bci, ppi
    ensures bci.Valid() && ppi.Valid()
    ensures committed <==> bciSource.Some? && ppiSource.Some?
    ensures !committed ==>
      Tables(bci.actuals, bci.runs, bci.points) == old(Tables(bci.actuals, bci.runs, bci.points)) &&
      Tables(ppi.actuals, ppi.runs, ppi.points) == old(Tables(ppi.actuals, ppi.runs, ppi.points))
    ensures committed ==>
      Tables(bci.actuals, bci.runs, bci.points) ==
        Backfilled(old(Tables(bci.actuals, bci.runs, bci.points)), "BCI", bciSource.value.listed, bciSource.value.readings,
                   bciForecast) &&
      Tables(ppi.actuals, ppi.runs, ppi.points) ==
        Backfilled(old(Tables(ppi.actuals, ppi.runs, ppi.points)), "PPI", ppiSource.value.listed, ppiSource.value.readings,
                   PpiBackfillForecast(fit))
  {
    if bciSource.None? {
      return false;
    }
    if ppiSource.None? {
      BackfillBciRolledBack(bci, bciSource.value, bciForecast);
      return false;
    }
    BackfillBci(bci, bciSource.value.listed, bciSource.value.readings, bciForecast);
    BackfillPpi(ppi, ppiSource.value.listed, ppiSource.value.readings, fit);
    committed := true;
  }

  /** The BCI backfill runs, then the producer price fetch raises and the session is rolled back. */
  method BackfillBciRolledBack(bci: IndexStore, src: Source, bciForecast: seq<(Month, real)> -> seq<(Month, real)>)
    requires bci.Valid()
    modifies bci
    ensures bci.Valid()
    ensures Tables(bci.actuals, bci.runs, bci.points) == old(Tables(bci.actuals, bci.runs, bci.points))
  {
    var actuals, runs, points := bci.actuals, bci.runs, bci.points;
    BackfillBci(bci, src.listed, src.readings, bciForecast);
    bci.actuals, bci.runs, bci.points := actuals, runs, points;
  }

  // ---------------------------------------------------------------------
  // Properties
  // ---------------------------------------------------------------------

  /** The rows written for a list of categories are those written for each listed category. */
  lemma {:induction false} AllWrittenSpec(cats: seq<string>, readings: Readings, r: (Month, string, real))
    ensures r in AllWritten(cats, readings) <==> r.1 in cats && r in Written(r.1, readings(r.1))
  {
    if cats != [] {
      var init := cats[..|cats| - 1];
      var c := cats[|cats| - 1];
      AllWrittenSpec(init, readings, r);
      assert cats == init + [c];
      WrittenSpec(c, readings(c), r);
    }
  }

  /**
   * The upserted table holds a row for a key exactly when it held one or a
   * reading of that category parses to that month with a value; a key no
   * reading names keeps its value.
   */
  lemma BackfilledActuals(t: Tables, total: string, listed: seq<string>, readings: Readings,
                          forecast: seq<(Month, real)> -> seq<(Month, real)>, k: (Month, string))
    ensures var b := Backfilled(t, total, listed, readings, forecast);
            var pairs := readings(k.1);
            (k in b.actuals <==>
               k in t.actuals ||
               (k.1 in CategoriesOr(listed, total) &&
                exists j :: 0 <= j < |pairs| && ParseDate(pairs[j].0) == Some(k.0) && pairs[j].1.Some?))
  {
    var rows := AllWritten(CategoriesOr(listed, total), readings);
    UpsertWagesRows(t.actuals, rows, k);
    var pairs := readings(k.1);
    if exists i :: 0 <= i < |rows| && (rows[i].0, rows[i].1) == k {
      var i :| 0 <= i < |rows| && (rows[i].0, rows[i].1) == k;
      AllWrittenSpec(CategoriesOr(listed, total), readings, rows[i]);
      WrittenSpec(k.1, pairs, rows[i]);
    }
    if k.1 in CategoriesOr(listed, total) && exists j :: 0 <= j < |pairs| && ParseDate(pairs[j].0) == Some(k.0) && pairs[j].1.Some? {
      var j :| 0 <= j < |pairs| && ParseDate(pairs[j].0) == Some(k.0) && pairs[j].1.Some?;
      var r := (k.0, k.1, pairs[j].1.value);
      WrittenSpec(k.1, pairs, r);
      AllWrittenSpec(CategoriesOr(listed, total), readings, r);
      var i :| 0 <= i < |rows| && rows[i] == r;
    }
  }

  /**
   * Exactly one run is created, with a fresh id, six months to predict and
   * the backfill notes; the old runs are untouched; every point still
   * belongs to a run, the new run's points are the forecast of the total
   * category when it has at least two rows and none otherwise.
   */
  lemma ForecastedOneRun(t: Tables, total: string, forecast: seq<(Month, real)>)
    requires Owned(t.points, t.runs.Keys)
    ensures var b := Forecasted(t, total, forecast);
            var id := FreshId(t.runs.Keys);
            b.actuals == t.actuals && id !in t.runs && b.runs.Keys == t.runs.Keys + {id} &&
            b.runs[id] == Run(None, 6, "backfill linear_reg_24m") &&
            (forall k :: k in t.runs ==> b.runs[k] == t.runs[k])
    ensures var b := Forecasted(t, total, forecast);
            Owned(b.points, b.runs.Keys) &&
            OfRun(b.points, FreshId(t.runs.Keys)) == PointsFor(FreshId(t.runs.Keys), total, forecast) &&
            (forall i :: |t.points| <= i < |b.points| ==> b.points[i].category == total)
  {
    ForecastedPoints(t.points, t.runs.Keys, total, forecast);
  }

  /** Appending a fresh run's points keeps every point owned and gives the new run exactly those points. */
  lemma ForecastedPoints(ps: seq<Point<string>>, ids: set<nat>, total: string, forecast: seq<(Month, real)>)
    requires Owned(ps, ids)
    ensures var id := FreshId(ids);
            var qs := ps + PointsFor(id, total, forecast);
            Owned(qs, ids + {id}) &&
            OfRun(qs, id) == PointsFor(id, total, forecast) &&
            (forall i :: |ps| <= i < |qs| ==> qs[i].category == total)
  {
    var id := FreshId(ids);
    var pts := PointsFor(id, total, forecast);
    NewRunOwnsItsPoints(ps, ids, total, forecast);
    assert forall i :: |ps| <= i < |ps + pts| ==> (ps + pts)[i] == pts[i - |ps|];
  }

  /** The total category is forecast only from at least two stored rows, read back in date order. */
  lemma TotalForecastRows(actuals: map<(Month, string), real>, total: string,
                          forecast: seq<(Month, real)> -> seq<(Month, real)>)
    ensures var rows := StoredRows(actuals, total);
            var f := TotalForecast(actuals, total, forecast);
            (|rows| < 2 ==> f == []) && (|rows| >= 2 ==> f == forecast(rows)) &&
            (|rows| < 2 <==> |CategorySeries(actuals, total)| < 2)
  {
  }

  /** The forecast the producer price backfill uses: `ppi_forecast(s, months=6)`. */
  function PpiBackfillForecast(fit: Fit): (f: seq<(Month, real)> -> seq<(Month, real)>)
    ensures forall s :: f(s) == PpiForecast(AllPresent(s), ForecastMonths, DefaultWindow, fit).value
  {
    s => PpiForecastAt(s, fit)
  }

  /** The series with every value present, as the frame built from the rows has it. */
  function AllPresent(s: seq<(Month, real)>): (r: seq<(Month, Option<real>)>)
    ensures |r| == |s|
    ensures forall i :: 0 <= i < |s| ==> r[i] == (s[i].0, Some(s[i].1))
  {
    seq(|s|, i requires 0 <= i < |s| => (s[i].0, Some(s[i].1)))
  }

  function PpiForecastAt(s: seq<(Month, real)>, fit: Fit): seq<(Month, real)> {
    PpiForecastDefined(AllPresent(s), ForecastMonths, DefaultWindow, fit);
    PpiForecast(AllPresent(s), ForecastMonths, DefaultWindow, fit).value
  }
}
