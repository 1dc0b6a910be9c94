/**
 * The CPI backfill job: for every month of a range, forecast as if it
 * were that month, training only on the actuals dated up to it, and store
 * one run per month (created "in" that month), either skipping months
 * that already have a run or refreshing their points.
 */
module BackfillCpi {
  import opened Wrappers
  import opened Calendar
  import opened PxData
  import opened Numbers
  import opened Trend
  import opened CpiPipeline
  import opened Store

  // ---------------------------------------------------------------------
  // normalize_trend_output
  // ---------------------------------------------------------------------

  /** One element of the tuple a trend function returns. */
  datatype Item =
    | Model                                   // a fitted estimator: it has `predict`
    | PairList(pairs: seq<(Month, real)>)
    | DateList(dates: seq<Month>)
    | ValueList(values: seq<real>)

  /** What a trend function returns: a tuple, or any other value. */
  datatype TrendOutput = Tuple(items: seq<Item>) | NotTuple

  /**
   * The outcome of normalising: the (date, value) pairs; Raises, a TypeError (not a
   * tuple, a tuple of the wrong length, or an estimator handed to `zip`);
   * or Unsupported, a tuple of an accepted length whose items are not
   * pairs, or dates and values, which the caller cannot store.
   */
  datatype Normalized = Pairs(pairs: seq<(Month, real)>) | Raises | Unsupported

  /** `list(zip(dates, preds))`: pairs up to the shorter of the two lists. */
  function Zip(dates: seq<Month>, values: seq<real>): (r: seq<(Month, real)>)
    ensures |r| == if |dates| < |values| then |dates| else |values|
    ensures forall i :: 0 <= i < |r| ==> r[i] == (dates[i], values[i])
  {
    var n := if |dates| < |values| then |dates| else |values|;
    seq(n, i requires 0 <= i < n => (dates[i], values[i]))
  }

  function ZipItems(a: Item, b: Item): Normalized {
    if a.Model? || b.Model? then Raises
    else if a.DateList? && b.ValueList? then Pairs(Zip(a.dates, b.values))
    else Unsupported
  }

  /**
   * `normalize_trend_output`: accepts `(model, pairs)`, `(dates, preds)` or
   * `(model, dates, preds)`; anything that is not a tuple of two or three
   * items raises a TypeError.
   */
  function NormalizeTrendOutput(res: TrendOutput): (r: Normalized)
    ensures res.NotTuple? ==> r.Raises?
    ensures res.Tuple? && |res.items| != 2 && |res.items| != 3 ==> r.Raises?
    ensures res.Tuple? && |res.items| == 2 && res.items[0].Model? ==>
      r == if res.items[1].PairList? then Pairs(res.items[1].pairs) else Unsupported
    ensures res.Tuple? && |res.items| == 2 && res.items[0].DateList? && res.items[1].ValueList? ==>
      r.Pairs? && r.pairs == Zip(res.items[0].dates, res.items[1].values)
    ensures res.Tuple? && |res.items| == 3 && res.items[1].DateList? && res.items[2].ValueList? ==>
      r.Pairs? && r.pairs == Zip(res.items[1].dates, res.items[2].values)
    ensures r.Pairs? ==> res.Tuple? && (|res.items| == 2 || |res.items| == 3)
  {
    match res
    case NotTuple => Raises
    case Tuple(items) =>
      if |items| == 2 && items[0].Model? then
        if items[1].PairList? then Pairs(items[1].pairs) else Unsupported
      else if |items| == 2 then ZipItems(items[0], items[1])
      else if |items| == 3 then ZipItems(items[1], items[2])
      else Raises
  }

  /** What `compute_trend` of the CPI pipeline returns, the fitted model and its pairs, or None where it raises. */
  function CpiTrendOutput(rows: seq<CpiRow>, monthsPredict: int, fit: Fit): Option<TrendOutput> {
    match ComputeTrend(rows, monthsPredict, fit)
    case None => None
    case Some(pairs) => Some(Tuple([Model, PairList(pairs)]))
  }

  // ---------------------------------------------------------------------
  // daterange_months
  // ---------------------------------------------------------------------

  /** `daterange_months`: monthly periods from `first` while not past `last`. */
  method DaterangeMonths(first: Month, last: Month) returns (r: seq<Month>)
    ensures r == MonthRange(first, last)
  {
    r := [];
    var m := first;
    while Index(m) <= Index(last)
      invariant Index(first) <= Index(m)
      invariant Index(m) <= Index(last) + 1 || m == first
      invariant |r| == Index(m) - Index(first)
      invariant forall i :: 0 <= i < |r| ==> Index(r[i]) == Index(first) + i
      decreases Index(last) - Index(m)
    {
      r := r + [m];
      m := AddMonths(m, 1);
    }
    MonthRangeExact(first, last, r);
  }

  // ---------------------------------------------------------------------
  // The as-of history of one month
  // ---------------------------------------------------------------------

  /** The levels of the actuals dated in or before the month of `cut`. */
  function LevelsUpTo(actuals: map<Month, CpiActual>, cut: Month): (s: map<Month, real>)
    ensures forall m :: m in s <==> m in actuals && Index(m) <= Index(cut)
    ensures forall m :: m in s ==> s[m] == actuals[m].cpi
  {
    map m | m in actuals && Index(m) <= Index(cut) :: actuals[m].cpi
  }

  /**
   * `df[df["date"] <= cut]` where `cut` is the end of a month: the levels
   * of every actual dated in or before that month, in date order.
   */
  function HistoryAt(actuals: map<Month, CpiActual>, cut: Month): (h: seq<(Month, real)>)
    ensures AscendingRows(h)
    ensures forall i :: 0 <= i < |h| ==>
      Index(h[i].0) <= Index(cut) && h[i].0 in actuals && h[i].1 == actuals[h[i].0].cpi
    ensures forall m :: m in actuals && Index(m) <= Index(cut) ==> exists i :: 0 <= i < |h| && h[i].0 == m
  {
    var s := LevelsUpTo(actuals, cut);
    var h := SortedRows(s);
    assert forall m :: m in actuals && Index(m) <= Index(cut) ==> m in s;
    h
  }

  /**
   * The frame handed to the trend: dates and levels only. The backfill
   * reads no change column, and the trend reads none, so the change is
   * left undefined.
   */
  function LevelFrame(rows: seq<(Month, real)>): (f: seq<CpiRow>)
    ensures |f| == |rows|
    ensures forall i :: 0 <= i < |rows| ==> f[i].date == rows[i].0 && f[i].cpi == rows[i].1
  {
    seq(|rows|, i requires 0 <= i < |rows| => CpiRow(rows[i].0, rows[i].1, NaN))
  }

  /** `max(2, window)`: the fewest actuals a month needs to be forecast. */
  function MinHistory(window: int): (n: int)
    ensures n >= 2 && n >= window && (n == 2 || n == window)
  {
    if window > 2 then window else 2
  }

  /** The training rows: the history cut to the window (`tail(window)` when it is longer). */
  function Training(actuals: map<Month, CpiActual>, cut: Month, window: int): seq<(Month, real)> {
    TailWindow(HistoryAt(actuals, cut), window)
  }

  /** The pairs forecast as of `cut`, or None where the trend raises. */
  function AsOfForecast(actuals: map<Month, CpiActual>, cut: Month, monthsPredict: int, window: int, fit: Fit): Option<seq<(Month, real)>> {
    ComputeTrend(LevelFrame(Training(actuals, cut, window)), monthsPredict, fit)
  }

  /** Runs whose `created_at` falls in the month of `cut` (`strftime("%Y-%m")` equal). */
  function RunsIn(runs: map<nat, Run>, cut: Month): (ids: set<nat>)
    ensures forall id :: id in ids <==> id in runs && runs[id].createdAt == Some(cut)
  {
    set id | id in runs && runs[id].createdAt == Some(cut)
  }

  // ---------------------------------------------------------------------
  // The backfill as a function of the tables
  // ---------------------------------------------------------------------

  /**
   * What one invocation decides for each month: whether it has enough
   * history, the forecast as of it, the horizon and notes of the runs it
   * creates, and whether existing runs are refreshed.
   */
  datatype Plan = Plan(eligible: Month -> bool, forecast: Month -> Option<seq<(Month, real)>>,
                       monthsPredict: int, notes: string, overwrite: bool)

  /** The plan of `backfill(months_predict, window, overwrite=...)` over a table of actuals. */
  function PlanOf(actuals: map<Month, CpiActual>, monthsPredict: int, window: int, overwrite: bool, fit: Fit): (p: Plan)
    ensures forall cut :: p.eligible(cut) == (|HistoryAt(actuals, cut)| >= MinHistory(window))
    ensures forall cut :: p.forecast(cut) == AsOfForecast(actuals, cut, monthsPredict, window, fit)
    ensures p.monthsPredict == monthsPredict && p.notes == "backfill_window" + IntString(window)
    ensures p.overwrite == overwrite
  {
    Plan((cut: Month) => |HistoryAt(actuals, cut)| >= MinHistory(window),
         (cut: Month) => AsOfForecast(actuals, cut, monthsPredict, window, fit),
         monthsPredict, "backfill_window" + IntString(window), overwrite)
  }

  /**
   * The run and point tables, the number of months forecast so far, and
   * whether the trend has raised, after which no month runs.
   */
  datatype Ledger = Ledger(runs: map<nat, Run>, points: seq<Point<()>>, count: nat, raised: bool)

  /**
   * One month of the backfill. Months without enough history, and months
   * that already have a run unless overwriting, are skipped. Otherwise the
   * first run of the month (the lowest id) loses its points, or a run
   * created in that month is added, and the as-of forecast is stored
   * under it. A trend that raises marks the ledger; the month's own
   * changes are discarded with the rest by the rollback.
   */
  function Step(p: Plan, l: Ledger, cut: Month): Ledger {
    var ids := RunsIn(l.runs, cut);
    if l.raised || !p.eligible(cut) || (!p.overwrite && ids != {}) then l
    else match p.forecast(cut)
      case None => l.(raised := true)
      case Some(pairs) =>
        if ids != {} then
          var id := MinOf(ids);
          Ledger(l.runs, WithoutRun(l.points, id) + PointsFor(id, (), pairs), l.count + 1, false)
        else
          var id := FreshId(l.runs.Keys);
          Ledger(l.runs[id := Run(Some(cut), p.monthsPredict, p.notes)],
                 l.points + PointsFor(id, (), pairs), l.count + 1, false)
  }

  /** The months in order, one step each. */
  function Pass(p: Plan, l: Ledger, cuts: seq<Month>): Ledger {
    if cuts == [] then l
    else Step(p, Pass(p, l, cuts[..|cuts| - 1]), cuts[|cuts| - 1])
  }

  /**
   * The months to simulate: from `start`, or `window - 1` months after the
   * earliest actual, to `end`, or the latest actual.
   */
  function Anchors(actuals: map<Month, CpiActual>, start: Option<Month>, end: Option<Month>, window: int): seq<Month>
    requires actuals != map[]
  {
    var ms := SortedMonths(actuals.Keys);
    var first := if start.Some? then start.value else AddMonths(ms[0], window - 1);
    var last := if end.Some? then end.value else ms[|ms| - 1];
    MonthRange(first, last)
  }

  /**
   * Without `--start` and `--end` the months run from `window - 1` months
   * after the earliest actual through the latest actual.
   */
  lemma AnchorsDefault(actuals: map<Month, CpiActual>, window: int)
    requires actuals != map[]
    ensures var ms := SortedMonths(actuals.Keys);
            forall m :: m in Anchors(actuals, None, None, window) <==> Index(ms[0]) + window - 1 <= Index(m) <= Index(ms[|ms| - 1])
  {
    var ms := SortedMonths(actuals.Keys);
    MonthRangeSpan(AddMonths(ms[0], window - 1), ms[|ms| - 1]);
  }

  /**
   * The outcome of `backfill`: RuntimeError when there are no actuals, the
   * ValueError of a trend that raised (nothing is committed), or the count
   * of months forecast.
   */
  datatype Outcome = NoActuals | TrendRaised | Created(count: nat)

  /**
   * The as-of history of one month: whether it has enough history and,
   * when it has, the training rows the trend is fitted on.
   */
  method AsOfTraining(p: Plan, actuals: map<Month, CpiActual>, cut: Month, window: int, fit: Fit)
    returns (eligible: bool, train: seq<(Month, real)>)
    requires p == PlanOf(actuals, p.monthsPredict, window, p.overwrite, fit)
    ensures eligible == p.eligible(cut)
    ensures eligible ==> p.forecast(cut) == ComputeTrend(LevelFrame(train), p.monthsPredict, fit)
  {
    var hist := HistoryAt(actuals, cut);
    if |hist| < MinHistory(window) {
      return false, [];
    }
    train := hist;
    if window != 0 && |hist| > window {
      train := TailWindow(hist, window);
    }
    return true, train;
  }

  /**
   * One month of the loop, on the store: the tables become those `Step`
   * gives. The trend is read only for a month that is forecast; `raised`
   * reports that it raised.
   */
  method BackfillMonth(store: CpiStore, p: Plan, cut: Month, eligible: bool, train: seq<(Month, real)>, fit: Fit,
                       count: nat) returns (count': nat, raised: bool)
    requires eligible == p.eligible(cut)
    requires eligible ==> p.forecast(cut) == ComputeTrend(LevelFrame(train), p.monthsPredict, fit)
    requires store.Valid()
    modifies store
    ensures store.Valid() && store.actuals == old(store.actuals)
    ensures Ledger(store.runs, store.points, count', raised) == Step(p, old(Ledger(store.runs, store.points, count, false)), cut)
  {
    count', raised := count, false;
    if !eligible {
      return;
    }
    var ids := RunsIn(store.runs, cut);
    if !p.overwrite && ids != {} {
      return;
    }
    var out := CpiTrendOutput(LevelFrame(train), p.monthsPredict, fit);
    if out.None? {
      return count, true;
    }
    CpiTrendNormalizes(LevelFrame(train), p.monthsPredict, fit);
    var pairs := NormalizeTrendOutput(out.value).pairs;
    var runId: nat;
    if ids != {} {
      runId := MinOf(ids);
      WithoutRunOwned(store.points, store.runs.Keys, runId);
      store.DeletePoints(runId);
    } else {
      runId := store.AddRun(Run(Some(cut), p.monthsPredict, p.notes));
    }
    store.AddPoints(runId, pairs);
    count' := count + 1;
  }

  /**
   * `backfill`: the months of the range, each as `Step` says, against the
   * tables of the store, committed once at the end. The actuals are only
   * read. A trend that raises leaves the run and point tables as they were.
   */
  method Backfill(store: CpiStore, monthsPredict: int, window: int, start: Option<Month>, end: Option<Month>,
                  overwrite: bool, fit: Fit) returns (r: Outcome)
    requires store.Valid()
    modifies store
    ensures store.Valid()
    ensures store.actuals == old(store.actuals)
    ensures old(store.actuals) == map[] ==>
      r == NoActuals && store.runs == old(store.runs) && store.points == old(store.points)
    ensures old(store.actuals) != map[] ==>
      var l := Pass(PlanOf(old(store.actuals), monthsPredict, window, overwrite, fit),
                    Ledger(old(store.runs), old(store.points), 0, false), Anchors(old(store.actuals), start, end, window));
      (l.raised ==> r == TrendRaised && store.runs == old(store.runs) && store.points == old(store.points)) &&
      (!l.raised ==> r == Created(l.count) && store.runs == l.runs && store.points == l.points)
  {
    var actuals := store.actuals;
    if actuals == map[] {
      return NoActuals;
    }
    var runs0, points0 := store.runs, store.points;
    var cuts := BackfillRange(actuals, start, end, window);
    var p := PlanOf(actuals, monthsPredict, window, overwrite, fit);
    var count, raised := RunMonths(store, p, actuals, cuts, window, fit);
    if raised {
      store.Rollback(runs0, points0);
      return TrendRaised;
    }
    r := Created(count);
  }

  /** The months of the loop, from the defaults or the given bounds. */
  method BackfillRange(actuals: map<Month, CpiActual>, start: Option<Month>, end: Option<Month>, window: int)
    returns (cuts: seq<Month>)
    requires actuals != map[]
    ensures cuts == Anchors(actuals, start, end, window)
  {
    var ms := SortedMonths(actuals.Keys);
    var first := if start.Some? then start.value else AddMonths(ms[0], window - 1);
    var last := if end.Some? then end.value else ms[|ms| - 1];
    cuts := DaterangeMonths(first, last);
  }

  /** The loop over the months, one step each, against the store, until the trend raises. */
  method RunMonths(store: CpiStore, p: Plan, actuals: map<Month, CpiActual>, cuts: seq<Month>, window: int, fit: Fit)
    returns (count: nat, raised: bool)
    requires p == PlanOf(actuals, p.monthsPredict, window, p.overwrite, fit)
    requires store.Valid() && store.actuals == actuals
    modifies store
    ensures store.Valid() && store.actuals == actuals
    ensures Ledger(store.runs, store.points, count, raised) == Pass(p, old(Ledger(store.runs, store.points, 0, false)), cuts)
  {
    ghost var l0 := Ledger(store.runs, store.points, 0, false);
    count, raised := 0, false;
    for i := 0 to |cuts|
      invariant store.Valid() && store.actuals == actuals
      invariant Ledger(store.runs, store.points, count, false) == Pass(p, l0, cuts[..i])
    {
      assert cuts[..i + 1][..i] == cuts[..i];
      var eligible, train := AsOfTraining(p, actuals, cuts[i], window, fit);
      count, raised := BackfillMonth(store, p, cuts[i], eligible, train, fit, count);
      if raised {
        PassStaysRaised(p, l0, cuts, i + 1);
        return;
      }
    }
    assert cuts[..|cuts|] == cuts;
  }

  // ---------------------------------------------------------------------
  // Properties
  // ---------------------------------------------------------------------

  /** The backfill's own trend output, when the trend returns, is always accepted, as the trend's pairs. */
  lemma CpiTrendNormalizes(rows: seq<CpiRow>, monthsPredict: int, fit: Fit)
    ensures CpiTrendOutput(rows, monthsPredict, fit).Some? <==> ComputeTrend(rows, monthsPredict, fit).Some?
    ensures CpiTrendOutput(rows, monthsPredict, fit).Some? ==>
      NormalizeTrendOutput(CpiTrendOutput(rows, monthsPredict, fit).value) == Pairs(ComputeTrend(rows, monthsPredict, fit).value)
  {
  }

  /**
   * No look-ahead: two tables of actuals that agree on every month up to
   * `cut` give the same history, hence the same eligibility and the same
   * forecast as of `cut`, whatever they hold afterwards.
   */
  lemma NoLookAhead(a1: map<Month, CpiActual>, a2: map<Month, CpiActual>, cut: Month,
                    monthsPredict: int, window: int, overwrite: bool, fit: Fit)
    requires forall m :: Index(m) <= Index(cut) ==> (m in a1 <==> m in a2)
    requires forall m :: m in a1 && Index(m) <= Index(cut) ==> a1[m].cpi == a2[m].cpi
    ensures HistoryAt(a1, cut) == HistoryAt(a2, cut)
    ensures var p1 := PlanOf(a1, monthsPredict, window, overwrite, fit);
            var p2 := PlanOf(a2, monthsPredict, window, overwrite, fit);
            p1.eligible(cut) == p2.eligible(cut) && p1.forecast(cut) == p2.forecast(cut)
  {
    LevelsAgree(a1, a2, cut);
    var h := HistoryAt(a1, cut);
    assert h == HistoryAt(a2, cut);
    assert Training(a1, cut, window) == Training(a2, cut, window);
  }

  /** Tables that agree up to `cut` have the same levels up to `cut`. */
  lemma LevelsAgree(a1: map<Month, CpiActual>, a2: map<Month, CpiActual>, cut: Month)
    requires forall m :: Index(m) <= Index(cut) ==> (m in a1 <==> m in a2)
    requires forall m :: m in a1 && Index(m) <= Index(cut) ==> a1[m].cpi == a2[m].cpi
    ensures LevelsUpTo(a1, cut) == LevelsUpTo(a2, cut)
  {
  }

  /** A step never removes or alters a run. */
  lemma StepKeepsRuns(p: Plan, l: Ledger, cut: Month, id: nat)
    requires id in l.runs
    ensures var s := Step(p, l, cut);
            id in s.runs && s.runs[id] == l.runs[id]
  {
  }

  /** Every point still belongs to a stored run after a step. */
  lemma StepOwned(p: Plan, l: Ledger, cut: Month)
    requires Owned(l.points, l.runs.Keys)
    ensures Owned(Step(p, l, cut).points, Step(p, l, cut).runs.Keys)
  {
    var ids := RunsIn(l.runs, cut);
    if ids != {} {
      WithoutRunOwned(l.points, l.runs.Keys, MinOf(ids));
    }
  }

  /**
   * A step that acts on an eligible month leaves that month with a run
   * whose points are exactly the new forecast: with overwrite the old
   * points of the reused run are gone, never duplicated.
   */
  lemma StepStoresExactly(p: Plan, l: Ledger, cut: Month)
    requires Owned(l.points, l.runs.Keys) && !l.raised
    requires p.eligible(cut) && p.forecast(cut).Some?
    requires p.overwrite || RunsIn(l.runs, cut) == {}
    ensures var s := Step(p, l, cut);
            var ids := RunsIn(l.runs, cut);
            var id := if ids != {} then MinOf(ids) else FreshId(l.runs.Keys);
            !s.raised && id in RunsIn(s.runs, cut) && s.count == l.count + 1 &&
            OfRun(s.points, id) == PointsFor(id, (), p.forecast(cut).value)
  {
    var ids := RunsIn(l.runs, cut);
    if ids != {} {
      ReplacedPoints(l.points, MinOf(ids), (), p.forecast(cut).value);
    } else {
      NewRunOwnsItsPoints(l.points, l.runs.Keys, (), p.forecast(cut).value);
    }
  }

  /** Every eligible month of `cuts` has a run created in it. */
  predicate Covered(p: Plan, runs: map<nat, Run>, cuts: seq<Month>) {
    forall i :: 0 <= i < |cuts| && p.eligible(cuts[i]) ==> RunsIn(runs, cuts[i]) != {}
  }

  /** After a pass that did not raise, in either mode, every eligible month of the range has a run. */
  lemma {:induction false} PassCovers(p: Plan, l: Ledger, cuts: seq<Month>)
    ensures !Pass(p, l, cuts).raised ==> Covered(p, Pass(p, l, cuts).runs, cuts)
  {
    if cuts != [] && !Pass(p, l, cuts).raised {
      var init := cuts[..|cuts| - 1];
      var cut := cuts[|cuts| - 1];
      var q := Pass(p, l, init);
      var s := Step(p, q, cut);
      assert !q.raised;
      PassCovers(p, l, init);
      forall i | 0 <= i < |cuts| && p.eligible(cuts[i])
        ensures RunsIn(s.runs, cuts[i]) != {}
      {
        if i < |init| {
          assert init[i] == cuts[i];
          var id :| id in RunsIn(q.runs, cuts[i]);
          StepKeepsRuns(p, q, cut, id);
          assert id in RunsIn(s.runs, cuts[i]);
        } else if RunsIn(q.runs, cut) != {} {
          var id :| id in RunsIn(q.runs, cut);
          StepKeepsRuns(p, q, cut, id);
          assert id in RunsIn(s.runs, cut);
        } else {
          assert FreshId(q.runs.Keys) in RunsIn(s.runs, cut);
        }
      }
    }
  }

  /** A pass without overwrite over months that all have their runs changes nothing. */
  lemma {:induction false} PassIdle(p: Plan, l: Ledger, cuts: seq<Month>)
    requires !p.overwrite
    requires Covered(p, l.runs, cuts)
    ensures Pass(p, l, cuts) == l
  {
    if cuts != [] {
      var init := cuts[..|cuts| - 1];
      assert Covered(p, l.runs, init) by {
        forall i | 0 <= i < |init| && p.eligible(init[i])
          ensures RunsIn(l.runs, init[i]) != {}
        {
          assert init[i] == cuts[i];
        }
      }
      PassIdle(p, l, init);
    }
  }

  /**
   * Idempotence per month: running the backfill again over the same range
   * without overwrite, on the tables a first run that committed left,
   * forecasts no month and changes no table.
   */
  lemma RerunCreatesNothing(actuals: map<Month, CpiActual>, l: Ledger, cuts: seq<Month>,
                            monthsPredict: int, window: int, overwrite: bool, fit: Fit)
    ensures var first := Pass(PlanOf(actuals, monthsPredict, window, overwrite, fit), l, cuts);
            var again := Ledger(first.runs, first.points, 0, false);
            !first.raised ==> Pass(PlanOf(actuals, monthsPredict, window, false, fit), again, cuts) == again
  {
    var p := PlanOf(actuals, monthsPredict, window, overwrite, fit);
    var q := PlanOf(actuals, monthsPredict, window, false, fit);
    var first := Pass(p, l, cuts);
    if !first.raised {
      PassCovers(p, l, cuts);
      assert Covered(q, first.runs, cuts);
      PassIdle(q, Ledger(first.runs, first.points, 0, false), cuts);
    }
  }

  /** Every point of the ledger stays attached to a run through a whole pass. */
  lemma {:induction false} PassOwned(p: Plan, l: Ledger, cuts: seq<Month>)
    requires Owned(l.points, l.runs.Keys)
    ensures Owned(Pass(p, l, cuts).points, Pass(p, l, cuts).runs.Keys)
  {
    if cuts != [] {
      PassOwned(p, l, cuts[..|cuts| - 1]);
      StepOwned(p, Pass(p, l, cuts[..|cuts| - 1]), cuts[|cuts| - 1]);
    }
  }

  /** Once the months up to `k` have raised, the rest of the range changes nothing. */
  lemma {:induction false} PassStaysRaised(p: Plan, l: Ledger, cuts: seq<Month>, k: nat)
    requires k <= |cuts| && Pass(p, l, cuts[..k]).raised
    ensures Pass(p, l, cuts) == Pass(p, l, cuts[..k])
  {
    if k < |cuts| {
      var init := cuts[..|cuts| - 1];
      assert init[..k] == cuts[..k];
      PassStaysRaised(p, l, init, k);
    } else {
      assert cuts[..k] == cuts;
    }
  }

  /** The trend never raises over a positive horizon, so neither does the pass. */
  lemma {:induction false} PositiveHorizonNeverRaises(actuals: map<Month, CpiActual>, l: Ledger, cuts: seq<Month>,
                                                      monthsPredict: int, window: int, overwrite: bool, fit: Fit)
    requires monthsPredict > 0 && !l.raised
    ensures !Pass(PlanOf(actuals, monthsPredict, window, overwrite, fit), l, cuts).raised
  {
    if cuts != [] {
      var p := PlanOf(actuals, monthsPredict, window, overwrite, fit);
      PositiveHorizonNeverRaises(actuals, l, cuts[..|cuts| - 1], monthsPredict, window, overwrite, fit);
      assert p.forecast(cuts[|cuts| - 1]).Some?;
    }
  }

  /**
   * Over a horizon of zero or less with a nonnegative window, the first
   * month that is forecast raises: it has at least two rows to fit, so
   * `predict` is reached with no positions.
   */
  lemma NonPositiveHorizonRaises(actuals: map<Month, CpiActual>, l: Ledger, cut: Month,
                                 monthsPredict: int, window: int, overwrite: bool, fit: Fit)
    requires monthsPredict <= 0 && window >= 0 && !l.raised
    requires |HistoryAt(actuals, cut)| >= MinHistory(window)
    requires overwrite || RunsIn(l.runs, cut) == {}
    ensures Step(PlanOf(actuals, monthsPredict, window, overwrite, fit), l, cut) == l.(raised := true)
  {
    var p := PlanOf(actuals, monthsPredict, window, overwrite, fit);
    var train := Training(actuals, cut, window);
    assert |train| > 0;
    assert |LevelFrame(train)| > 0;
    assert p.eligible(cut);
    assert p.forecast(cut) == ComputeTrend(LevelFrame(train), monthsPredict, fit);
    assert p.forecast(cut).None?;
  }
}
