/**
 * The wage backfill job: for every requested category and every month of
 * a range that the category's series has, store the month's actual and a
 * forecast made only from the observations up to that month, under a run
 * whose notes name the category, the month and the window.
 */
module BackfillWages {
  import opened Wrappers
  import opened Text
  import opened Calendar
  import opened PxData
  import opened Trend
  import opened WageIndexSource
  import opened WagesPipeline
  import opened Store
  import opened FetchJobs

  // ---------------------------------------------------------------------
  // Arguments
  // ---------------------------------------------------------------------

  /** `parse_ym`: a "%Y-%m" month; None where strptime raises. */
  function ParseYm(s: string): (r: Option<Month>)
    ensures r.Some? ==> InDateRange(r.value)
  {
    Strptime(s, '-')
  }

  /** A nonempty name with no white space at either end. */
  predicate Clean(s: string) {
    s != "" && !IsSpace(s[0]) && !IsSpace(s[|s| - 1])
  }

  /** The pieces of a comma list, stripped, without the empty ones. */
  function Kept(pieces: seq<string>): (cats: seq<string>)
    ensures |cats| <= |pieces|
    ensures forall i :: 0 <= i < |cats| ==> Clean(cats[i])
  {
    if pieces == [] then []
    else
      var c := StripSpace(pieces[|pieces| - 1]);
      Kept(pieces[..|pieces| - 1]) + if c != "" then [c] else []
  }

  /** Each kept name is the stripped form of one of the pieces. */
  lemma {:induction false} KeptFrom(pieces: seq<string>, i: nat) returns (j: nat)
    requires i < |Kept(pieces)|
    ensures j < |pieces| && Kept(pieces)[i] == StripSpace(pieces[j])
  {
    var n := |pieces| - 1;
    var init := pieces[..n];
    var rest := Kept(init);
    KeptUnfold(pieces);
    if i < |rest| {
      j := KeptFrom(init, i);
      assert init[j] == pieces[j];
    } else {
      j := n;
    }
  }

  lemma KeptUnfold(pieces: seq<string>)
    requires pieces != []
    ensures var c := StripSpace(pieces[|pieces| - 1]);
            Kept(pieces) == Kept(pieces[..|pieces| - 1]) + if c != "" then [c] else []
  {
  }

  /** `[c.strip() for c in arg.split(",") if c.strip()]` */
  function CategoryList(arg: string): (cats: seq<string>)
    ensures forall i :: 0 <= i < |cats| ==> cats[i] != "" && ',' !in cats[i]
  {
    var pieces := Split(arg, ',');
    var cats := Kept(pieces);
    assert forall i :: 0 <= i < |cats| ==> ',' !in cats[i] by {
      forall i | 0 <= i < |cats|
        ensures ',' !in cats[i]
      {
        var j := KeptFrom(pieces, i);
      }
    }
    cats
  }

  /** Stripped, nonempty pieces are kept as they are. */
  lemma {:induction false} KeptClean(cats: seq<string>)
    requires forall i :: 0 <= i < |cats| ==> Clean(cats[i])
    ensures Kept(cats) == cats
  {
    if cats != [] {
      var init := cats[..|cats| - 1];
      var c := cats[|cats| - 1];
      assert forall i :: 0 <= i < |init| ==> Clean(init[i]) by {
        forall i | 0 <= i < |init| ensures Clean(init[i]) {
          assert init[i] == cats[i];
        }
      }
      KeptClean(init);
      KeptUnfold(cats);
      assert StripSpace(c) == c;
      assert cats == init + [c];
    }
  }

  /** A list of clean category names, written with commas, is read back as that list. */
  lemma CategoryListJoin(cats: seq<string>)
    requires |cats| >= 1
    requires forall i :: 0 <= i < |cats| ==> Clean(cats[i]) && ',' !in cats[i]
    ensures CategoryList(Join(cats, ',')) == cats
  {
    JoinSplit(cats, ',');
    KeptClean(cats);
  }

  /** `month_iter`: first days of months from `first` while not after `last`, rolling December over. */
  method MonthIter(first: Month, last: Month) returns (r: seq<Month>)
    ensures r == MonthRange(first, last)
  {
    var y, m := first.year, first.month;
    r := [];
    while true
      invariant 1 <= m <= 12
      invariant Index(first) <= y * 12 + m - 1
      invariant y * 12 + m - 1 <= Index(last) + 1 || YearMonth(y, m) == first
      invariant |r| == y * 12 + m - 1 - Index(first)
      invariant forall i :: 0 <= i < |r| ==> Index(r[i]) == Index(first) + i
      decreases Index(last) + 1 - (y * 12 + m - 1)
    {
      var d: Month := YearMonth(y, m);
      if Index(d) > Index(last) {
        break;
      }
      r := r + [d];
      m := m + 1;
      if m == 13 {
        m := 1;
        y := y + 1;
      }
    }
    MonthRangeExact(first, last, r);
  }

  // ---------------------------------------------------------------------
  // The series of one category
  // ---------------------------------------------------------------------

  /** `series.loc[anchor]` where `anchor in series.index`, None where it is not. */
  function ValueAt(series: seq<(Month, real)>, m: Month): (r: Option<real>)
    ensures r.None? <==> forall i :: 0 <= i < |series| ==> series[i].0 != m
    ensures r.Some? ==> exists i :: 0 <= i < |series| && series[i] == (m, r.value)
  {
    if series == [] then None
    else if series[|series| - 1].0 == m then Some(series[|series| - 1].1)
    else
      var r := ValueAt(series[..|series| - 1], m);
      assert forall i :: 0 <= i < |series| - 1 ==> series[..|series| - 1][i] == series[i];
      r
  }

  /** `series[series.index <= anchor]`: the observations dated up to `anchor`, in order. */
  function UpTo(series: seq<(Month, real)>, m: Month): (h: seq<(Month, real)>)
    ensures |h| <= |series|
    ensures forall i :: 0 <= i < |h| ==> Index(h[i].0) <= Index(m)
  {
    if series == [] then []
    else
      var last := series[|series| - 1];
      UpTo(series[..|series| - 1], m) + if Index(last.0) <= Index(m) then [last] else []
  }

  /** The history holds exactly the observations dated up to the month. */
  lemma {:induction false} UpToMembers(series: seq<(Month, real)>, m: Month, x: (Month, real))
    ensures x in UpTo(series, m) <==> x in series && Index(x.0) <= Index(m)
  {
    if series != [] {
      var init := series[..|series| - 1];
      UpToMembers(init, m, x);
      assert series == init + [series[|series| - 1]];
    }
  }

  /** The value of the month is found in its history as well. */
  lemma {:induction false} ValueAtUpTo(series: seq<(Month, real)>, m: Month)
    ensures ValueAt(UpTo(series, m), m) == ValueAt(series, m)
  {
    if series != [] {
      var init := series[..|series| - 1];
      var last := series[|series| - 1];
      ValueAtUpTo(init, m);
      var h := UpTo(series, m);
      if Index(last.0) <= Index(m) {
        assert h == UpTo(init, m) + [last];
        assert h[..|h| - 1] == UpTo(init, m);
        assert h[|h| - 1] == last;
      } else {
        assert h == UpTo(init, m);
      }
    }
  }

  /** Observations dated after the month never enter its history. */
  lemma {:induction false} UpToIgnoresLater(s: seq<(Month, real)>, later: seq<(Month, real)>, m: Month)
    requires forall i :: 0 <= i < |later| ==> Index(later[i].0) > Index(m)
    ensures UpTo(s + later, m) == UpTo(s, m)
  {
    if later != [] {
      var init := later[..|later| - 1];
      UpToIgnoresLater(s, init, m);
      assert (s + later)[..|s + later| - 1] == s + init;
      assert (s + later)[|s + later| - 1] == later[|later| - 1];
    } else {
      assert s + later == s;
    }
  }

  /** The `pd.Series` of the training rows, as the wage pipeline takes it. */
  function SeriesMap(rows: seq<(Month, real)>): (s: map<Month, Option<real>>)
    ensures forall m :: m in s <==> exists i :: 0 <= i < |rows| && rows[i].0 == m
    ensures forall m :: m in s ==> s[m].Some?
  {
    var kvs := seq(|rows|, i requires 0 <= i < |rows| => (rows[i].0, Some(rows[i].1)));
    assert forall i :: 0 <= i < |rows| ==> kvs[i].0 == rows[i].0;
    UpsertedPresent(kvs);
    forall m ensures m in Upserted(map[], kvs) <==> exists i :: 0 <= i < |rows| && rows[i].0 == m {
      UpsertedSpec(map[], kvs, m);
    }
    Upserted(map[], kvs)
  }

  /**
   * `compute_forecast(hist, months, window=len(hist))`: the whole window is
   * the training set, so the fit always has data; only `predict` can raise
   * (None), on a horizon of zero or less with rows to fit.
   */
  function BackfillForecast(train: seq<(Month, real)>, months: int, fit: Fit): (r: Option<seq<(Month, real)>>)
    ensures r.None? <==> |train| > 0 && months <= 0
  {
    if |train| > 0 then
      assert train[0].0 in Present(SeriesMap(train));
      WageTrainingWindow(SeriesMap(train), |train|);
      ComputeForecast(SeriesMap(train), months, |train|, fit)
    else
      ComputeForecast(SeriesMap(train), months, |train|, fit)
  }

  // ---------------------------------------------------------------------
  // Run notes and the runs an overwrite deletes
  // ---------------------------------------------------------------------

  /** `f"backfill:{cat}:{anchor_ym}:"`: what the notes of a category's run at a month start with. */
  function NotesPrefix(cat: string, anchor: Month): string
    requires InDateRange(anchor)
  {
    "backfill:" + cat + ":" + FormatDashed(anchor) + ":"
  }

  /** `f"backfill:{cat}:{anchor_ym}:linear_reg_{window}m"` */
  function RunNotes(cat: string, anchor: Month, window: int): (notes: string)
    requires InDateRange(anchor)
    ensures StartsWith(notes, NotesPrefix(cat, anchor))
  {
    var notes := NotesPrefix(cat, anchor) + "linear_reg_" + IntString(window) + "m";
    assert notes[..|NotesPrefix(cat, anchor)|] == NotesPrefix(cat, anchor);
    notes
  }

  /**
   * SQLite's `LIKE` without an escape character: `%` matches any run of
   * characters, `_` any one character, and letters match regardless of
   * ASCII case.
   */
  predicate Like(pattern: string, s: string)
    decreases |pattern| + |s|
  {
    if pattern == [] then s == []
    else if pattern[0] == '%' then Like(pattern[1..], s) || (s != [] && Like(pattern, s[1..]))
    else s != [] && (pattern[0] == '_' || AsciiLower(pattern[0]) == AsciiLower(s[0])) && Like(pattern[1..], s[1..])
  }

  /** The runs `delete_backfill_run` selects, as written: `notes LIKE prefix || '%'`. */
  function MatchingRunsAsWritten(runs: map<nat, Run>, cat: string, anchor: Month): (ids: set<nat>)
    requires InDateRange(anchor)
    ensures forall id :: id in ids <==> id in runs && Like(NotesPrefix(cat, anchor) + "%", runs[id].notes)
  {
    set id | id in runs && Like(NotesPrefix(cat, anchor) + "%", runs[id].notes)
  }

  /** The runs of a category at a month: those whose notes start with exactly its prefix. */
  function MatchingRuns(runs: map<nat, Run>, cat: string, anchor: Month): (ids: set<nat>)
    requires InDateRange(anchor)
    ensures forall id :: id in ids <==> id in runs && StartsWith(runs[id].notes, NotesPrefix(cat, anchor))
  {
    set id | id in runs && StartsWith(runs[id].notes, NotesPrefix(cat, anchor))
  }

  /** `%` matches any string. */
  lemma {:induction false} LikeAnything(s: string)
    ensures Like("%", s)
    decreases |s|
  {
    if s != [] {
      LikeAnything(s[1..]);
    }
  }

  /** A pattern without `%` matches, position by position, any string of its length. */
  lemma {:induction false} LikePositionwise(p: string, s: string, t: string)
    requires |p| == |s| && '%' !in p
    requires forall k :: 0 <= k < |p| ==> p[k] == '_' || AsciiLower(p[k]) == AsciiLower(s[k])
    ensures Like(p + "%", s + t)
  {
    if p == [] {
      assert p + "%" == "%" && s + t == t;
      LikeAnything(t);
    } else {
      LikePositionwise(p[1..], s[1..], t);
      assert (p + "%")[1..] == p[1..] + "%";
      assert (s + t)[1..] == s[1..] + t;
    }
  }

  /**
   * The wildcard in a category name: overwriting category "OPI_R" at a
   * month selects, and deletes, the run that category "OPI-R" stored at
   * that month, because `_` matches the `-`. The exact prefix does not.
   */
  lemma LikeSelectsOtherCategory(anchor: Month, window: int)
    requires InDateRange(anchor)
    ensures var runs := map[1 := Run(None, 12, RunNotes("OPI-R", anchor, window))];
            1 in MatchingRunsAsWritten(runs, "OPI_R", anchor) && 1 !in MatchingRuns(runs, "OPI_R", anchor)
  {
    var d := FormatDashed(anchor);
    var t := "linear_reg_" + IntString(window) + "m";
    NotesFields("OPI_R", anchor, "OPI-R", anchor, window);
    assert '%' !in d by {
      assert d == FourDigits(anchor.year) + "-" + TwoDigits(anchor.month);
    }
    WildcardCategory(d, t);
  }

  /** The prefix written for "OPI_R" matches, as a `LIKE` pattern, the notes written for "OPI-R". */
  lemma WildcardCategory(d: string, t: string)
    requires '%' !in d
    ensures Like("backfill:" + ("OPI_R" + ":" + (d + ":")) + "%", "backfill:" + ("OPI-R" + ":" + (d + ":" + t)))
    ensures !StartsWith("backfill:" + ("OPI-R" + ":" + (d + ":" + t)), "backfill:" + ("OPI_R" + ":" + (d + ":")))
  {
    var p := "backfill:" + ("OPI_R" + ":" + (d + ":"));
    var s := "backfill:" + ("OPI-R" + ":" + (d + ":"));
    assert |p| == |s|;
    forall k | 0 <= k < |p|
      ensures p[k] == '_' || AsciiLower(p[k]) == AsciiLower(s[k])
    {
      if k != 12 {
        assert p[k] == s[k];
      }
    }
    assert '%' !in p by {
      assert d == p[15..|p| - 1];
    }
    LikePositionwise(p, s, t);
    assert s + t == "backfill:" + ("OPI-R" + ":" + (d + ":" + t));
    assert p[12] != s[12];
  }

  /** Two colon-terminated fields, one a prefix of the other's line, are the same field. */
  lemma FieldsAgree(a: string, x: string, b: string, y: string)
    requires ':' !in a && ':' !in b
    requires |a| + 1 + |x| <= |b| + 1 + |y|
    requires (b + ":" + y)[..|a| + 1 + |x|] == a + ":" + x
    ensures a == b && y[..|x|] == x
  {
    var n := b + ":" + y;
    var q := a + ":" + x;
    var rest := n[|q|..];
    assert n == q + rest;
    assert n == a + [':'] + (x + rest);
    SplitHead(a, x + rest, ':');
    SplitHead(b, y, ':');
    assert [a] + Split(x + rest, ':') == [b] + Split(y, ':');
    assert a == ([a] + Split(x + rest, ':'))[0];
    assert x == q[|a| + 1..] == n[|a| + 1..|a| + 1 + |x|] == y[..|x|];
  }

  /** Dropping a common head keeps a prefix a prefix. */
  lemma StartsWithCommon(h: string, t: string, u: string)
    requires StartsWith(h + t, h + u)
    ensures |u| <= |t| && t[..|u|] == u
  {
    forall k | 0 <= k < |u|
      ensures t[k] == u[k]
    {
      assert t[k] == (h + t)[|h| + k] == (h + u)[|h| + k] == u[k];
    }
  }

  /**
   * With exact prefixes, a category's overwrite selects a run exactly when
   * the run was stored for that category at that month (category names
   * without colons).
   */
  lemma MatchingRunsExact(cat: string, anchor: Month, other: string, at: Month, window: int)
    requires InDateRange(anchor) && InDateRange(at)
    requires ':' !in cat && ':' !in other
    ensures StartsWith(RunNotes(other, at, window), NotesPrefix(cat, anchor)) <==> other == cat && at == anchor
  {
    var x := FormatDashed(anchor) + ":";
    var rest := "linear_reg_" + IntString(window) + "m";
    var y := FormatDashed(at) + ":" + rest;
    if StartsWith(RunNotes(other, at, window), NotesPrefix(cat, anchor)) {
      NotesFields(cat, anchor, other, at, window);
      StartsWithCommon("backfill:", other + ":" + y, cat + ":" + x);
      FieldsAgree(cat, x, other, y);
      SameDashedMonth(anchor, at, rest);
    }
  }

  /** The notes and the prefix as a head and colon-separated fields. */
  lemma NotesFields(cat: string, anchor: Month, other: string, at: Month, window: int)
    requires InDateRange(anchor) && InDateRange(at)
    ensures NotesPrefix(cat, anchor) == "backfill:" + (cat + ":" + (FormatDashed(anchor) + ":"))
    ensures RunNotes(other, at, window) ==
      "backfill:" + (other + ":" + (FormatDashed(at) + ":" + ("linear_reg_" + IntString(window) + "m")))
  {
  }

  /** A formatted month followed by a colon starts only the notes of that same month. */
  lemma SameDashedMonth(anchor: Month, at: Month, rest: string)
    requires InDateRange(anchor) && InDateRange(at)
    requires (FormatDashed(at) + ":" + rest)[..8] == FormatDashed(anchor) + ":"
    ensures at == anchor
  {
    assert FormatDashed(at) == (FormatDashed(at) + ":" + rest)[..7] == (FormatDashed(anchor) + ":")[..7] == FormatDashed(anchor);
    StrptimeFormat(at, '-');
    StrptimeFormat(anchor, '-');
  }

  // ---------------------------------------------------------------------
  // The backfill as a function of the tables
  // ---------------------------------------------------------------------

  /** The horizon, the window, whether to overwrite, and the forecast on a training window. */
  datatype WagePlan = WagePlan(months: int, window: int, overwrite: bool,
                               forecast: seq<(Month, real)> -> Option<seq<(Month, real)>>)

  function WagePlanOf(months: int, window: int, overwrite: bool, fit: Fit): (p: WagePlan)
    ensures p.months == months && p.window == window && p.overwrite == overwrite
    ensures forall train :: p.forecast(train) == BackfillForecast(train, months, fit)
  {
    WagePlan(months, window, overwrite, train => BackfillForecast(train, months, fit))
  }

  /**
   * The committed tables, the actuals upserted since the last commit, the
   * number of runs created, and whether a forecast raised, which ends the
   * job with the tables as last committed.
   */
  datatype WageLedger = WageLedger(actuals: map<(Month, string), real>, pending: seq<(Month, string, real)>,
                                   runs: map<nat, Run>, points: seq<Point<string>>, count: nat, raised: bool)

  /**
   * One (category, month) of the loop. A month the series lacks is
   * skipped. Otherwise its actual is upserted; with fewer than two
   * observations up to it nothing else happens (the upsert stays
   * uncommitted). Otherwise, after deleting the category's runs at that
   * month when overwriting, a run is created with the forecast on the
   * latest `window` observations, and everything is committed. Nothing
   * runs after a forecast has raised.
   */
  function AnchorStep(p: WagePlan, l: WageLedger, cat: string, series: seq<(Month, real)>, anchor: Month): WageLedger
    requires InDateRange(anchor)
  {
    if l.raised then l
    else match ValueAt(series, anchor)
    case None => l
    case Some(v) =>
      var hist := UpTo(series, anchor);
      var l' := l.(pending := l.pending + [(anchor, cat, v)]);
      if |hist| < 2 then l' else Commit(p, l', cat, anchor, TailWindow(hist, p.window))
  }

  /**
   * The committing part of a step: the matching runs deleted when
   * overwriting, a new run with the forecast on the training window, the
   * pending upserts applied, and one more run counted. The new run's id is
   * one above the largest id before the deletions: the last matched run's
   * delete is still pending when the run is flushed, and a flush inserts
   * before it deletes, so that run (the largest matched id) still holds its
   * row when SQLite picks the next rowid. When the forecast
   * raises, the deletions, the run and the upserts since the last commit
   * are never committed: the committed tables stay as they were.
   */
  function Commit(p: WagePlan, l: WageLedger, cat: string, anchor: Month, train: seq<(Month, real)>): WageLedger
    requires InDateRange(anchor)
  {
    match p.forecast(train)
    case None => l.(raised := true)
    case Some(fut) =>
      var gone := if p.overwrite then MatchingRuns(l.runs, cat, anchor) else {};
      var runs := l.runs - gone;
      var id := FreshId(l.runs.Keys);
      WageLedger(Upserted(l.actuals, WageEntries(l.pending)), [],
                 runs[id := Run(None, p.months, RunNotes(cat, anchor, p.window))],
                 WithoutRuns(l.points, gone) + PointsFor(id, cat, fut),
                 l.count + 1, false)
  }

  /** Every month of the range, in order, for one category. */
  function CategoryPass(p: WagePlan, l: WageLedger, cat: string, series: seq<(Month, real)>, anchors: seq<Month>): WageLedger
    requires forall i :: 0 <= i < |anchors| ==> InDateRange(anchors[i])
  {
    if anchors == [] then l
    else AnchorStep(p, CategoryPass(p, l, cat, series, anchors[..|anchors| - 1]), cat, series, anchors[|anchors| - 1])
  }

  /** Every category in order; a category whose series is empty is skipped. */
  function BackfillPass(p: WagePlan, l: WageLedger, cats: seq<string>, seriesOf: string -> seq<(Month, real)>,
                        anchors: seq<Month>): WageLedger
    requires forall i :: 0 <= i < |anchors| ==> InDateRange(anchors[i])
  {
    if cats == [] then l
    else
      var prev := BackfillPass(p, l, cats[..|cats| - 1], seriesOf, anchors);
      var cat := cats[|cats| - 1];
      if seriesOf(cat) == [] then prev else CategoryPass(p, prev, cat, seriesOf(cat), anchors)
  }

  /**
   * The outcome of `main`: a ValueError for a bad month argument, the
   * ValueError a forecast raised after the commits before it, or the count
   * of runs created.
   */
  datatype WageOutcome = BadMonth | ForecastRaised | Done(count: nat)

  // ---------------------------------------------------------------------
  // The job on the tables
  // ---------------------------------------------------------------------

  /** `delete_backfill_run`: each selected run loses its points, then is deleted. */
  method DeleteBackfillRun(store: IndexStore, cat: string, anchor: Month)
    requires InDateRange(anchor) && store.Valid()
    modifies store
    ensures store.Valid()
    ensures store.runs == old(store.runs) - MatchingRuns(old(store.runs), cat, anchor)
    ensures store.points == WithoutRuns(old(store.points), MatchingRuns(old(store.runs), cat, anchor))
    ensures store.actuals == old(store.actuals)
  {
    var ids := MatchingRuns(store.runs, cat, anchor);
    DeleteRuns(store, ids);
  }

  /** Deleting the runs of a set one at a time, each with its points. */
  method DeleteRuns(store: IndexStore, ids: set<nat>)
    requires store.Valid()
    modifies store
    ensures store.Valid()
    ensures store.runs == old(store.runs) - ids
    ensures store.points == WithoutRuns(old(store.points), ids)
    ensures store.actuals == old(store.actuals)
  {
    var todo := ids;
    ghost var done: set<nat> := {};
    WithoutNoRuns(store.points);
    while todo != {}
      invariant store.Valid()
      invariant todo + done == ids && todo !! done
      invariant store.runs == old(store.runs) - done
      invariant store.points == WithoutRuns(old(store.points), done)
      invariant store.actuals == old(store.actuals)
      decreases |todo|
    {
      var id :| id in todo;
      store.DeleteRun(id);
      WithoutOneMore(old(store.points), done, id);
      todo := todo - {id};
      done := done + {id};
    }
  }

  /** The forecast of one training window, as the plan states it; None where `predict` raises. */
  method ForecastWindow(p: WagePlan, train: seq<(Month, real)>, fit: Fit) returns (pairs: Option<seq<(Month, real)>>)
    requires p == WagePlanOf(p.months, p.window, p.overwrite, fit)
    ensures pairs == p.forecast(train)
    ensures pairs.None? <==> |train| > 0 && p.months <= 0
  {
    pairs := ComputeForecast(SeriesMap(train), p.months, |train|, fit);
  }

  /**
   * One (category, month) of the loop, on the store and the uncommitted
   * upserts; `raised` reports a forecast that raised, which leaves the
   * store as last committed.
   */
  method AnchorMonth(store: IndexStore, p: WagePlan, cat: string, series: seq<(Month, real)>, anchor: Month,
                     fit: Fit, pending: seq<(Month, string, real)>, count: nat)
    returns (pending': seq<(Month, string, real)>, count': nat, raised: bool)
    requires p == WagePlanOf(p.months, p.window, p.overwrite, fit)
    requires InDateRange(anchor) && store.Valid()
    modifies store
    ensures store.Valid()
    ensures WageLedger(store.actuals, pending', store.runs, store.points, count', raised) ==
      AnchorStep(p, old(WageLedger(store.actuals, pending, store.runs, store.points, count, false)), cat, series, anchor)
  {
    pending', count', raised := pending, count, false;
    var v := ValueAt(series, anchor);
    if v.None? {
      return;
    }
    pending' := pending + [(anchor, cat, v.value)];
    var hist := UpTo(series, anchor);
    if |hist| < 2 {
      return;
    }
    if |hist| > p.window {
      hist := TailWindow(hist, p.window);
    }
    var fut := ForecastWindow(p, hist, fit);
    if fut.None? {
      return pending', count', true;
    }
    pending', count' := CommitMonth(store, p, cat, anchor, hist, fut.value, pending', count');
  }

  /** The committing part of a month on the store, once the forecast is known. */
  method CommitMonth(store: IndexStore, p: WagePlan, cat: string, anchor: Month, train: seq<(Month, real)>,
                     fut: seq<(Month, real)>, pending: seq<(Month, string, real)>, count: nat)
    returns (pending': seq<(Month, string, real)>, count': nat)
    requires p.forecast(train) == Some(fut)
    requires InDateRange(anchor) && store.Valid()
    modifies store
    ensures store.Valid()
    ensures WageLedger(store.actuals, pending', store.runs, store.points, count', false) ==
      Commit(p, old(WageLedger(store.actuals, pending, store.runs, store.points, count, false)), cat, anchor, train)
  {
    ghost var l := WageLedger(store.actuals, pending, store.runs, store.points, count, false);
    // `delete_backfill_run` selects its runs first; the run is flushed
    // before the last of their deletes, so it takes the id after all of them.
    var gone := if p.overwrite then MatchingRuns(store.runs, cat, anchor) else {};
    var id := store.AddRun(Run(None, p.months, RunNotes(cat, anchor, p.window)));
    assert id !in gone;
    DeleteRuns(store, gone);
    assert store.runs == (l.runs - gone)[id := Run(None, p.months, RunNotes(cat, anchor, p.window))];
    store.AddPoints(id, cat, fut);
    assert store.points == WithoutRuns(l.points, gone) + PointsFor(id, cat, fut);
    UpsertWages(store, pending);
    pending' := [];
    count' := count + 1;
  }

  /** The months of one category, until a forecast raises. */
  method CategoryMonths(store: IndexStore, p: WagePlan, cat: string, series: seq<(Month, real)>, anchors: seq<Month>,
                        fit: Fit, pending: seq<(Month, string, real)>, count: nat)
    returns (pending': seq<(Month, string, real)>, count': nat, raised: bool)
    requires p == WagePlanOf(p.months, p.window, p.overwrite, fit)
    requires forall i :: 0 <= i < |anchors| ==> InDateRange(anchors[i])
    requires store.Valid()
    modifies store
    ensures store.Valid()
    ensures WageLedger(store.actuals, pending', store.runs, store.points, count', raised) ==
      CategoryPass(p, old(WageLedger(store.actuals, pending, store.runs, store.points, count, false)), cat, series, anchors)
  {
    ghost var l0 := WageLedger(store.actuals, pending, store.runs, store.points, count, false);
    pending', count', raised := pending, count, false;
    for j := 0 to |anchors|
      invariant store.Valid()
      invariant WageLedger(store.actuals, pending', store.runs, store.points, count', false) ==
        CategoryPass(p, l0, cat, series, anchors[..j])
    {
      assert anchors[..j + 1][..j] == anchors[..j];
      pending', count', raised := AnchorMonth(store, p, cat, series, anchors[j], fit, pending', count');
      if raised {
        CategoryPassStaysRaised(p, l0, cat, series, anchors, j + 1);
        return;
      }
    }
    assert anchors[..|anchors|] == anchors;
  }

  /** The series of each category as `fetch_wage_series` returns it from a fetched index. */
  function SeriesSource(index: Table, categories: set<string>): (f: string -> seq<(Month, real)>)
    ensures forall c :: f(c) == WageSeriesOf(index, categories, c)
  {
    c => WageSeriesOf(index, categories, c)
  }

  /**
   * `main`: parse the range and the categories, then every category's
   * months against the store, with each category's series as
   * `fetch_wage_series` returns it. Upserts after the last commit are
   * discarded when the session closes; a forecast that raises ends the job
   * with what was committed before it.
   */
  method BackfillWagesMain(store: IndexStore, src: WageIndex, startArg: string, endArg: string, categoriesArg: string,
                           months: int, window: int, overwrite: bool, fit: Fit) returns (r: WageOutcome)
    requires store.Valid()
    modifies store
    ensures store.Valid()
    ensures ParseYm(startArg).None? || ParseYm(endArg).None? ==>
      r == BadMonth && store.actuals == old(store.actuals) && store.runs == old(store.runs) && store.points == old(store.points)
    ensures ParseYm(startArg).Some? && ParseYm(endArg).Some? ==>
      var l := BackfillPass(WagePlanOf(months, window, overwrite, fit),
                            WageLedger(old(store.actuals), [], old(store.runs), old(store.points), 0, false),
                            CategoryList(categoriesArg), SeriesSource(src.index, src.categories),
                            MonthRange(ParseYm(startArg).value, ParseYm(endArg).value));
      r == (if l.raised then ForecastRaised else Done(l.count)) &&
      store.actuals == l.actuals && store.runs == l.runs && store.points == l.points
  {
    var start := ParseYm(startArg);
    var end := ParseYm(endArg);
    if start.None? || end.None? {
      return BadMonth;
    }
    var cats := CategoryList(categoriesArg);
    var p := WagePlanOf(months, window, overwrite, fit);
    var anchors := MonthIter(start.value, end.value);
    var count, raised := RunCategories(store, src, p, cats, anchors, fit);
    r := if raised then ForecastRaised else Done(count);
  }

  /** The loop over the categories, from an empty session, until a forecast raises. */
  method RunCategories(store: IndexStore, src: WageIndex, p: WagePlan, cats: seq<string>, anchors: seq<Month>, fit: Fit)
    returns (count: nat, raised: bool)
    requires p == WagePlanOf(p.months, p.window, p.overwrite, fit)
    requires forall i :: 0 <= i < |anchors| ==> InDateRange(anchors[i])
    requires store.Valid()
    modifies store
    ensures store.Valid()
    ensures var l := BackfillPass(p, WageLedger(old(store.actuals), [], old(store.runs), old(store.points), 0, false),
                                  cats, SeriesSource(src.index, src.categories), anchors);
            count == l.count && raised == l.raised &&
            store.actuals == l.actuals && store.runs == l.runs && store.points == l.points
  {
    ghost var seriesOf := SeriesSource(src.index, src.categories);
    ghost var l0 := WageLedger(store.actuals, [], store.runs, store.points, 0, false);
    var pending: seq<(Month, string, real)> := [];
    count, raised := 0, false;
    for i := 0 to |cats|
      invariant store.Valid()
      invariant WageLedger(store.actuals, pending, store.runs, store.points, count, false) ==
        BackfillPass(p, l0, cats[..i], seriesOf, anchors)
    {
      assert cats[..i + 1][..i] == cats[..i];
      var series := FetchWageSeries(src, cats[i]);
      if series == [] {
        continue;
      }
      pending, count, raised := CategoryMonths(store, p, cats[i], series, anchors, fit, pending, count);
      if raised {
        BackfillPassStaysRaised(p, l0, cats, seriesOf, anchors, i + 1);
        return;
      }
    }
    assert cats[..|cats|] == cats;
  }

  /** A raised ledger goes through any further months unchanged. */
  lemma {:induction false} CategoryPassOfRaised(p: WagePlan, l: WageLedger, cat: string, series: seq<(Month, real)>,
                                                anchors: seq<Month>)
    requires forall i :: 0 <= i < |anchors| ==> InDateRange(anchors[i])
    requires l.raised
    ensures CategoryPass(p, l, cat, series, anchors) == l
  {
    if anchors != [] {
      CategoryPassOfRaised(p, l, cat, series, anchors[..|anchors| - 1]);
    }
  }

  /** Once the months up to `j` have raised, the rest of the category changes nothing. */
  lemma {:induction false} CategoryPassStaysRaised(p: WagePlan, l: WageLedger, cat: string, series: seq<(Month, real)>,
                                                   anchors: seq<Month>, j: nat)
    requires forall i :: 0 <= i < |anchors| ==> InDateRange(anchors[i])
    requires j <= |anchors| && CategoryPass(p, l, cat, series, anchors[..j]).raised
    ensures CategoryPass(p, l, cat, series, anchors) == CategoryPass(p, l, cat, series, anchors[..j])
  {
    if j < |anchors| {
      var init := anchors[..|anchors| - 1];
      assert init[..j] == anchors[..j];
      CategoryPassStaysRaised(p, l, cat, series, init, j);
    } else {
      assert anchors[..j] == anchors;
    }
  }

  /** Once the categories up to `i` have raised, the remaining categories change nothing. */
  lemma {:induction false} BackfillPassStaysRaised(p: WagePlan, l: WageLedger, cats: seq<string>,
                                                   seriesOf: string -> seq<(Month, real)>, anchors: seq<Month>, i: nat)
    requires forall k :: 0 <= k < |anchors| ==> InDateRange(anchors[k])
    requires i <= |cats| && BackfillPass(p, l, cats[..i], seriesOf, anchors).raised
    ensures BackfillPass(p, l, cats, seriesOf, anchors) == BackfillPass(p, l, cats[..i], seriesOf, anchors)
  {
    if i < |cats| {
      var init := cats[..|cats| - 1];
      assert init[..i] == cats[..i];
      BackfillPassStaysRaised(p, l, init, seriesOf, anchors, i);
      CategoryPassOfRaised(p, BackfillPass(p, l, init, seriesOf, anchors), cats[|cats| - 1], seriesOf(cats[|cats| - 1]), anchors);
    } else {
      assert cats[..i] == cats;
    }
  }

  /**
   * Over a positive horizon no forecast raises: the fit always has data
   * and `predict` has positions, so every committing month commits.
   */
  lemma {:induction false} PositiveHorizonCategoryPass(p: WagePlan, l: WageLedger, cat: string, series: seq<(Month, real)>,
                                                       anchors: seq<Month>, fit: Fit)
    requires p == WagePlanOf(p.months, p.window, p.overwrite, fit) && p.months > 0
    requires forall i :: 0 <= i < |anchors| ==> InDateRange(anchors[i])
    requires !l.raised
    ensures !CategoryPass(p, l, cat, series, anchors).raised
  {
    if anchors != [] {
      PositiveHorizonCategoryPass(p, l, cat, series, anchors[..|anchors| - 1], fit);
    }
  }

  /** Over a positive horizon the whole job runs to the end and reports its count. */
  lemma {:induction false} PositiveHorizonNeverRaises(p: WagePlan, l: WageLedger, cats: seq<string>,
                                                      seriesOf: string -> seq<(Month, real)>, anchors: seq<Month>, fit: Fit)
    requires p == WagePlanOf(p.months, p.window, p.overwrite, fit) && p.months > 0
    requires forall k :: 0 <= k < |anchors| ==> InDateRange(anchors[k])
    requires !l.raised
    ensures !BackfillPass(p, l, cats, seriesOf, anchors).raised
  {
    if cats != [] {
      var init := cats[..|cats| - 1];
      PositiveHorizonNeverRaises(p, l, init, seriesOf, anchors, fit);
      PositiveHorizonCategoryPass(p, BackfillPass(p, l, init, seriesOf, anchors), cats[|cats| - 1],
                                  seriesOf(cats[|cats| - 1]), anchors, fit);
    }
  }

  /**
   * Over a horizon of zero or less, the first month with two observations
   * and a nonempty window raises, and nothing of that month is committed.
   */
  lemma NonPositiveHorizonRaises(p: WagePlan, l: WageLedger, cat: string, series: seq<(Month, real)>, anchor: Month,
                                 fit: Fit)
    requires p == WagePlanOf(p.months, p.window, p.overwrite, fit) && p.months <= 0
    requires InDateRange(anchor) && !l.raised
    requires ValueAt(series, anchor).Some? && |UpTo(series, anchor)| >= 2
    requires |TailWindow(UpTo(series, anchor), p.window)| > 0
    ensures var s := AnchorStep(p, l, cat, series, anchor);
            s.raised && s.actuals == l.actuals && s.runs == l.runs && s.points == l.points && s.count == l.count
  {
  }

  // ---------------------------------------------------------------------
  // Properties
  // ---------------------------------------------------------------------

  /**
   * No look-ahead: two series with the same observations up to the month
   * give the same step, whatever they hold after it.
   */
  lemma AnchorStepNoLookAhead(p: WagePlan, l: WageLedger, cat: string, s1: seq<(Month, real)>, s2: seq<(Month, real)>,
                              anchor: Month)
    requires InDateRange(anchor)
    requires UpTo(s1, anchor) == UpTo(s2, anchor)
    ensures AnchorStep(p, l, cat, s1, anchor) == AnchorStep(p, l, cat, s2, anchor)
  {
    ValueAtUpTo(s1, anchor);
    ValueAtUpTo(s2, anchor);
  }

  /** Every point stays attached to a stored run through a step. */
  lemma AnchorStepOwned(p: WagePlan, l: WageLedger, cat: string, series: seq<(Month, real)>, anchor: Month)
    requires InDateRange(anchor)
    requires Owned(l.points, l.runs.Keys)
    ensures var s := AnchorStep(p, l, cat, series, anchor);
            Owned(s.points, s.runs.Keys)
  {
    if !l.raised && ValueAt(series, anchor).Some? && |UpTo(series, anchor)| >= 2 {
      var gone := if p.overwrite then MatchingRuns(l.runs, cat, anchor) else {};
      WithoutRunsOwned(l.points, l.runs.Keys, gone);
    }
  }

  /**
   * A committing step stores the month's actual, and with overwrite leaves
   * exactly one run of the category at that month, whose points are
   * exactly the new forecast.
   */
  lemma AnchorStepStores(p: WagePlan, l: WageLedger, cat: string, series: seq<(Month, real)>, anchor: Month, v: real)
    requires InDateRange(anchor) && !l.raised
    requires Owned(l.points, l.runs.Keys)
    requires ValueAt(series, anchor) == Some(v) && |UpTo(series, anchor)| >= 2
    requires p.forecast(TailWindow(UpTo(series, anchor), p.window)).Some?
    ensures var s := AnchorStep(p, l, cat, series, anchor);
            var gone := if p.overwrite then MatchingRuns(l.runs, cat, anchor) else {};
            var id := FreshId(l.runs.Keys);
            !s.raised && s.pending == [] && (anchor, cat) in s.actuals && s.actuals[(anchor, cat)] == v &&
            id in MatchingRuns(s.runs, cat, anchor) &&
            (p.overwrite ==> MatchingRuns(s.runs, cat, anchor) == {id}) &&
            OfRun(s.points, id) == PointsFor(id, cat, p.forecast(TailWindow(UpTo(series, anchor), p.window)).value)
  {
    var l' := l.(pending := l.pending + [(anchor, cat, v)]);
    var train := TailWindow(UpTo(series, anchor), p.window);
    assert AnchorStep(p, l, cat, series, anchor) == Commit(p, l', cat, anchor, train);
    CommitStores(p, l', cat, anchor, train, v);
  }

  /**
   * Overwriting the only run of a category at a month does not reuse its
   * id: the new run is flushed while that run still holds its row, so it
   * takes the next id and the old one is then deleted.
   */
  lemma OverwriteTakesNextId(p: WagePlan, l: WageLedger, cat: string, anchor: Month, train: seq<(Month, real)>, window: int)
    requires InDateRange(anchor) && p.overwrite && p.forecast(train).Some?
    requires l.runs == map[1 := Run(None, p.months, RunNotes(cat, anchor, window))]
    ensures Commit(p, l, cat, anchor, train).runs.Keys == {2}
  {
    assert 1 in MatchingRuns(l.runs, cat, anchor);
    assert MaxOf(l.runs.Keys) == 1;
  }

  /** What a commit stores: the last pending actual, the run, and its points. */
  lemma CommitStores(p: WagePlan, l: WageLedger, cat: string, anchor: Month, train: seq<(Month, real)>, v: real)
    requires InDateRange(anchor)
    requires Owned(l.points, l.runs.Keys)
    requires |l.pending| > 0 && l.pending[|l.pending| - 1] == (anchor, cat, v)
    requires p.forecast(train).Some?
    ensures var s := Commit(p, l, cat, anchor, train);
            var gone := if p.overwrite then MatchingRuns(l.runs, cat, anchor) else {};
            var id := FreshId(l.runs.Keys);
            !s.raised && s.pending == [] && (anchor, cat) in s.actuals && s.actuals[(anchor, cat)] == v &&
            id in MatchingRuns(s.runs, cat, anchor) &&
            (p.overwrite ==> MatchingRuns(s.runs, cat, anchor) == {id}) &&
            OfRun(s.points, id) == PointsFor(id, cat, p.forecast(train).value)
  {
    var s := Commit(p, l, cat, anchor, train);
    var gone := if p.overwrite then MatchingRuns(l.runs, cat, anchor) else {};
    var runs := l.runs - gone;
    var id := FreshId(l.runs.Keys);
    assert s.actuals == Upserted(l.actuals, WageEntries(l.pending));
    UpsertWagesRows(l.actuals, l.pending, (anchor, cat));
    assert s.runs == runs[id := Run(None, p.months, RunNotes(cat, anchor, p.window))];
    CommitRuns(runs, gone, l.runs, cat, anchor, id, Run(None, p.months, RunNotes(cat, anchor, p.window)), p.overwrite);
    var kept := WithoutRuns(l.points, gone);
    assert s.points == kept + PointsFor(id, cat, p.forecast(train).value);
    WithoutRunsOwned(l.points, l.runs.Keys, gone);
    assert runs.Keys == l.runs.Keys - gone;
    NewRunOwnsItsPoints(kept, l.runs.Keys, cat, p.forecast(train).value);
  }

  /** The new run is the category's run at the month, and the only one when the old ones were removed. */
  lemma CommitRuns(runs: map<nat, Run>, gone: set<nat>, all: map<nat, Run>, cat: string, anchor: Month, id: nat, run: Run,
                   overwrite: bool)
    requires InDateRange(anchor)
    requires gone == (if overwrite then MatchingRuns(all, cat, anchor) else {}) && runs == all - gone
    requires StartsWith(run.notes, NotesPrefix(cat, anchor))
    ensures id in MatchingRuns(runs[id := run], cat, anchor)
    ensures overwrite ==> MatchingRuns(runs[id := run], cat, anchor) == {id}
  {
  }
}
