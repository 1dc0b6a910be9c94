/**
 * The stand-alone CPI script: its record loop and pivot into one row per
 * month, its positional (unanchored) trend, and its annual change, which
 * has no guard against a zero base.
 */
module LegacyCpi {
  import opened Wrappers
  import opened Calendar
  import opened PxData
  import opened Numbers
  import opened Trend

  /** `{"date": date, "type": measure_type, "value": float(value)}` */
  datatype Record = Record(date: Month, kind: string, value: real)

  /** A pivoted row: the month and its value per column. */
  datatype LegacyRow = LegacyRow(date: Month, values: map<string, real>)

  /** What `parse_data` raises, or the table it returns. */
  datatype Parsed =
    | KeyNotThreeParts   // ValueError: `entry["key"]` does not unpack into three names
    | NoValuesField      // KeyError: the entry has no "values"
    | NoFirstValue       // IndexError: `entry["values"][0]` of an empty list
    | FloatTypeError     // TypeError: `float` of a null, list or object, which `except ValueError` lets through
    | NoRecords          // KeyError: pivoting a frame with no "date" column
    | DuplicateEntries   // ValueError: the pivot meets a (date, type) pair twice
    | Frame(columns: set<string>, rows: seq<LegacyRow>)

  /**
   * The exception an entry raises that the loop does not catch, if any: the
   * three before the `try`, and the TypeError of `float` on a first value
   * that is not text or a number once its month has parsed.
   */
  function EntryError(e: Entry): (r: Option<Parsed>)
    ensures r.None? <==>
      |e.key| == 3 && e.values.Some? && |e.values.value| > 0 &&
      !(e.values.value[0].WrongType? && Strptime(e.key[0], 'M').Some?)
    ensures r == Some(FloatTypeError) <==>
      |e.key| == 3 && e.values.Some? && |e.values.value| > 0 &&
      e.values.value[0].WrongType? && Strptime(e.key[0], 'M').Some?
  {
    if |e.key| != 3 then Some(KeyNotThreeParts)
    else if e.values.None? then Some(NoValuesField)
    else if |e.values.value| == 0 then Some(NoFirstValue)
    else if e.values.value[0].WrongType? && Strptime(e.key[0], 'M').Some? then Some(FloatTypeError)
    else None
  }

  /**
   * The record a well-shaped entry contributes: none for the "." sentinel
   * or any other value `float` rejects, or a month strptime rejects. (A value
   * of the wrong type with a parsable month never gets here: `EntryError`.)
   */
  function RecordOf(key: seq<string>, first: Cell): (r: Option<Record>)
    requires |key| == 3
    ensures r.Some? <==> first.Numeric? && Strptime(key[0], 'M').Some?
    ensures r.Some? ==> r.value == Record(Strptime(key[0], 'M').value, key[2], first.v)
  {
    if !first.Numeric? then None
    else
      match Strptime(key[0], 'M')
      case Some(d) => Some(Record(d, key[2], first.v))
      case None => None
  }

  /** How far the loop gets: the exception it raises, or the records it appended. */
  datatype Scan = Raised(error: Parsed) | Scanned(records: seq<Record>)

  function ScanEntries(data: seq<Entry>): Scan {
    if data == [] then Scanned([])
    else
      var e := data[|data| - 1];
      match ScanEntries(data[..|data| - 1])
      case Raised(err) => Raised(err)
      case Scanned(rs) =>
        match EntryError(e)
        case Some(err) => Raised(err)
        case None =>
          match RecordOf(e.key, e.values.value[0])
          case Some(rec) => Scanned(rs + [rec])
          case None => Scanned(rs)
  }

  /**
   * The loop raises exactly when some entry raises an exception it does not
   * catch, and then with the exception of the first such entry.
   */
  lemma {:induction false} ScanRaisesFirst(data: seq<Entry>)
    ensures ScanEntries(data).Raised? <==> exists j :: 0 <= j < |data| && EntryError(data[j]).Some?
    ensures ScanEntries(data).Raised? ==>
      exists j :: 0 <= j < |data| && EntryError(data[j]).Some? && ScanEntries(data).error == EntryError(data[j]).value &&
                  forall k :: 0 <= k < j ==> EntryError(data[k]).None?
  {
    if data != [] {
      var init := data[..|data| - 1];
      ScanRaisesFirst(init);
      assert forall j :: 0 <= j < |init| ==> init[j] == data[j];
    }
  }

  /** Without an exception, a record is kept exactly when some entry yields it. */
  lemma {:induction false} ScanKeeps(data: seq<Entry>, rec: Record)
    requires ScanEntries(data).Scanned?
    ensures rec in ScanEntries(data).records <==>
      exists j :: 0 <= j < |data| && EntryError(data[j]).None? &&
                  RecordOf(data[j].key, data[j].values.value[0]) == Some(rec)
  {
    if data != [] {
      var init := data[..|data| - 1];
      ScanKeeps(init, rec);
      assert forall j :: 0 <= j < |init| ==> init[j] == data[j];
    }
  }

  /** `rename(columns={"index": "CPI", "change_M": "Monthly Change"})` */
  function ColumnName(kind: string): string {
    if kind == "index" then "CPI" else if kind == "change_M" then "Monthly Change" else kind
  }

  /** The pivot accepts the records only when no (date, type) pair repeats. */
  predicate UniqueKeys(rs: seq<Record>) {
    forall i, j :: 0 <= i < j < |rs| ==> rs[i].date != rs[j].date || rs[i].kind != rs[j].kind
  }

  /** The measure types among the records. */
  function Kinds(rs: seq<Record>): set<string> {
    if rs == [] then {} else Kinds(rs[..|rs| - 1]) + {rs[|rs| - 1].kind}
  }

  /** The months among the records. */
  function Dates(rs: seq<Record>): set<Month> {
    if rs == [] then {} else Dates(rs[..|rs| - 1]) + {rs[|rs| - 1].date}
  }

  lemma {:induction false} KindsAndDates(rs: seq<Record>, r: Record)
    requires r in rs
    ensures r.kind in Kinds(rs) && r.date in Dates(rs)
  {
    var init := rs[..|rs| - 1];
    assert rs == init + [rs[|rs| - 1]];
    if r != rs[|rs| - 1] {
      KindsAndDates(init, r);
    }
  }

  /** One pivoted row's cells: the value of each record of month `d`, under its renamed column. */
  function ValuesAt(rs: seq<Record>, d: Month): map<string, real> {
    if rs == [] then map[]
    else
      var r := rs[|rs| - 1];
      var m := ValuesAt(rs[..|rs| - 1], d);
      if r.date == d then m[ColumnName(r.kind) := r.value] else m
  }

  /** The pivoted rows of the months `ds`, in that order. */
  function RowsOf(ds: seq<Month>, rs: seq<Record>): (rows: seq<LegacyRow>)
    ensures |rows| == |ds|
    ensures forall i :: 0 <= i < |ds| ==> rows[i] == LegacyRow(ds[i], ValuesAt(rs, ds[i]))
  {
    seq(|ds|, i requires 0 <= i < |ds| => LegacyRow(ds[i], ValuesAt(rs, ds[i])))
  }

  /** Every month of `ds` has its row. */
  lemma RowsOfCover(ds: seq<Month>, rs: seq<Record>)
    ensures forall d :: d in ds ==> exists i :: 0 <= i < |ds| && RowsOf(ds, rs)[i].date == d
  {
    forall d | d in ds
      ensures exists i :: 0 <= i < |ds| && RowsOf(ds, rs)[i].date == d
    {
      var i :| 0 <= i < |ds| && ds[i] == d;
      assert RowsOf(ds, rs)[i].date == d;
    }
  }

  /** `df.pivot(index="date", columns="type", values="value").sort_index()` */
  function Pivot(rs: seq<Record>): (rows: seq<LegacyRow>)
    ensures |rows| == |Dates(rs)|
    ensures forall i, j :: 0 <= i < j < |rows| ==> Index(rows[i].date) < Index(rows[j].date)
    ensures forall i :: 0 <= i < |rows| ==> rows[i].date in Dates(rs) && rows[i].values == ValuesAt(rs, rows[i].date)
    ensures forall d :: d in Dates(rs) ==> exists i :: 0 <= i < |rows| && rows[i].date == d
  {
    var ds := SortedMonths(Dates(rs));
    RowsOfCover(ds, rs);
    RowsOf(ds, rs)
  }

  /** `parse_data`: the loop, then the pivot, the renaming and `reset_index`. */
  function ParseOf(data: seq<Entry>): Parsed {
    match ScanEntries(data)
    case Raised(err) => err
    case Scanned(rs) =>
      if rs == [] then NoRecords
      else if !UniqueKeys(rs) then DuplicateEntries
      else Frame(set k | k in Kinds(rs) :: ColumnName(k), Pivot(rs))
  }

  /** Once an entry has raised, later entries change nothing. */
  lemma {:induction false} RaisedStays(data: seq<Entry>, i: nat)
    requires i <= |data| && ScanEntries(data[..i]).Raised?
    ensures ScanEntries(data) == ScanEntries(data[..i])
    decreases |data| - i
  {
    if i < |data| {
      assert data[..i + 1][..i] == data[..i];
      RaisedStays(data, i + 1);
    } else {
      assert data[..i] == data;
    }
  }

  /** The loop of `parse_data`: stop at the first entry that raises, else collect and pivot. */
  method ParseData(data: seq<Entry>) returns (r: Parsed)
    ensures r == ParseOf(data)
  {
    var records: seq<Record> := [];
    var i := 0;
    while i < |data|
      invariant 0 <= i <= |data|
      invariant ScanEntries(data[..i]) == Scanned(records)
    {
      var e := data[i];
      assert data[..i + 1][..i] == data[..i];
      match EntryError(e) {
        case Some(err) =>
          assert ScanEntries(data[..i + 1]) == Raised(err);
          RaisedStays(data, i + 1);
          return err;
        case None =>
      }
      match RecordOf(e.key, e.values.value[0]) {
        case Some(rec) => records := records + [rec];
        case None =>
      }
      i := i + 1;
    }
    assert data[..i] == data;
    if records == [] {
      return NoRecords;
    }
    if !UniqueKeys(records) {
      return DuplicateEntries;
    }
    r := Frame(set k | k in Kinds(records) :: ColumnName(k), Pivot(records));
  }

  /** No renamed column collides with another measure type. */
  predicate NoRenameClash(kinds: set<string>) {
    !("index" in kinds && "CPI" in kinds) && !("change_M" in kinds && "Monthly Change" in kinds)
  }

  /** A record that is alone in its month under its column supplies that cell. */
  lemma {:induction false} ValuesAtSpec(rs: seq<Record>, d: Month, rec: Record)
    requires rec in rs && rec.date == d
    requires forall r :: r in rs && r.date == d && ColumnName(r.kind) == ColumnName(rec.kind) ==> r == rec
    ensures ColumnName(rec.kind) in ValuesAt(rs, d) && ValuesAt(rs, d)[ColumnName(rec.kind)] == rec.value
  {
    var init := rs[..|rs| - 1];
    var last := rs[|rs| - 1];
    assert rs == init + [last];
    if rec != last {
      ValuesAtSpec(init, d, rec);
    }
  }

  /** Without a clash, renaming keeps distinct measure types apart. */
  lemma ColumnNameInjective(a: string, b: string, kinds: set<string>)
    requires a in kinds && b in kinds && NoRenameClash(kinds)
    requires ColumnName(a) == ColumnName(b)
    ensures a == b
  {
  }

  /** Records with the same month and type are the same record when the pivot accepts them. */
  lemma UniqueRecord(rs: seq<Record>, r: Record, q: Record)
    requires UniqueKeys(rs) && r in rs && q in rs && r.date == q.date && r.kind == q.kind
    ensures r == q
  {
    var a :| 0 <= a < |rs| && rs[a] == r;
    var b :| 0 <= b < |rs| && rs[b] == q;
    if a < b {
      assert rs[a].date == rs[b].date && rs[a].kind == rs[b].kind;
    } else if b < a {
      assert rs[b].date == rs[a].date && rs[b].kind == rs[a].kind;
    }
  }

  /**
   * In the table, each kept record is the cell of its month under its
   * renamed column (when no renamed column collides with another type).
   */
  lemma FrameHoldsRecords(data: seq<Entry>, rec: Record)
    requires ParseOf(data).Frame? && ScanEntries(data).Scanned? && rec in ScanEntries(data).records
    requires NoRenameClash(Kinds(ScanEntries(data).records))
    ensures var rows := ParseOf(data).rows;
            exists i :: 0 <= i < |rows| && rows[i].date == rec.date &&
                        ColumnName(rec.kind) in rows[i].values && rows[i].values[ColumnName(rec.kind)] == rec.value
  {
    var rs := ScanEntries(data).records;
    assert UniqueKeys(rs) && ParseOf(data).rows == Pivot(rs);
    var rows := Pivot(rs);
    KindsAndDates(rs, rec);
    var i :| 0 <= i < |rows| && rows[i].date == rec.date;
    forall r | r in rs && r.date == rec.date && ColumnName(r.kind) == ColumnName(rec.kind)
      ensures r == rec
    {
      KindsAndDates(rs, r);
      ColumnNameInjective(r.kind, rec.kind, Kinds(rs));
      UniqueRecord(rs, r, rec);
    }
    ValuesAtSpec(rs, rec.date, rec);
    assert rows[i].values == ValuesAt(rs, rec.date);
  }

  /** Every column of a pivoted row comes from a record of that month. */
  lemma {:induction false} ValuesAtOnlyRecords(rs: seq<Record>, d: Month, c: string)
    requires c in ValuesAt(rs, d)
    ensures exists r :: r in rs && r.date == d && ColumnName(r.kind) == c && ValuesAt(rs, d)[c] == r.value
  {
    var init := rs[..|rs| - 1];
    var last := rs[|rs| - 1];
    if !(last.date == d && ColumnName(last.kind) == c) {
      ValuesAtOnlyRecords(init, d, c);
      var r :| r in init && r.date == d && ColumnName(r.kind) == c && ValuesAt(init, d)[c] == r.value;
      assert r in rs;
    }
  }

  // ---------------------------------------------------------------------
  // compute_trend and compute_annual_cpi
  // ---------------------------------------------------------------------

  /** What `compute_trend` raises, or the fitted model with its projections. */
  datatype LegacyTrend =
    | NoCpiColumn      // KeyError: `df["CPI"]`
    | FitRaises        // ValueError: no rows, or a missing CPI value, in the training data
    | PredictRaises    // ValueError: a horizon of zero or less gives `predict` no positions
    | Projection(model: Line, points: seq<(Month, real)>)

  /** The CPI column when every row has a value. */
  predicate CpiComplete(rows: seq<LegacyRow>) {
    forall i :: 0 <= i < |rows| ==> "CPI" in rows[i].values
  }

  function CpiValues(rows: seq<LegacyRow>): (ys: seq<real>)
    requires CpiComplete(rows)
    ensures |ys| == |rows| && forall i :: 0 <= i < |rows| ==> ys[i] == rows[i].values["CPI"]
  {
    seq(|rows|, i requires 0 <= i < |rows| => rows[i].values["CPI"])
  }

  /**
   * `compute_trend`: the line fitted on positions 0..n-1, read off at
   * positions n..n+h-1, dated 1..h months after the last row, with no
   * anchoring to the last value. The fit comes first, so its error wins
   * over the one `predict` raises for a horizon of zero or less.
   */
  function ComputeTrend(columns: set<string>, rows: seq<LegacyRow>, monthsPredict: int, fit: Fit): (r: LegacyTrend)
    ensures r.NoCpiColumn? <==> "CPI" !in columns
    ensures r.FitRaises? <==> "CPI" in columns && (rows == [] || !CpiComplete(rows))
    ensures r.PredictRaises? <==> "CPI" in columns && rows != [] && CpiComplete(rows) && monthsPredict <= 0
    ensures r.Projection? ==>
      monthsPredict > 0 &&
      r.model == fit(Positions(CpiValues(rows))) &&
      r.points == ContinueFit(CpiValues(rows), rows[|rows| - 1].date, monthsPredict, fit)
  {
    if "CPI" !in columns then NoCpiColumn
    else if rows == [] || !CpiComplete(rows) then FitRaises
    else if monthsPredict <= 0 then PredictRaises
    else
      var ys := CpiValues(rows);
      Projection(fit(Positions(ys)), ContinueFit(ys, rows[|rows| - 1].date, monthsPredict, fit))
  }

  /** The legacy projections do not pass through the last value: they are the raw line, one slope apart. */
  lemma LegacyTrendIsRawLine(columns: set<string>, rows: seq<LegacyRow>, monthsPredict: int, fit: Fit)
    requires ComputeTrend(columns, rows, monthsPredict, fit).Projection?
    ensures var t := ComputeTrend(columns, rows, monthsPredict, fit);
            |t.points| == monthsPredict &&
            (forall i :: 0 <= i < |t.points| ==>
              Index(t.points[i].0) == Index(rows[|rows| - 1].date) + i + 1 &&
              t.points[i].1 == t.model.At((|rows| + i) as real)) &&
            (forall i :: 0 < i < |t.points| ==> t.points[i].1 - t.points[i - 1].1 == t.model.slope)
  {
    var t := ComputeTrend(columns, rows, monthsPredict, fit);
    var ys := CpiValues(rows);
    forall i | 0 < i < |t.points|
      ensures t.points[i].1 - t.points[i - 1].1 == t.model.slope
    {
      ContinueFitSteps(ys, rows[|rows| - 1].date, monthsPredict, fit, i);
    }
  }

  /** What `compute_annual_cpi` returns or raises. */
  datatype LegacyAnnual = NoAnnual | KeyError | Annual(percent: Float)

  /** A cell of the pivot, NaN where the month has no value for the column. */
  function Cell(row: LegacyRow, column: string): Option<real> {
    if column in row.values then Some(row.values[column]) else None
  }

  /**
   * `compute_annual_cpi`: None before row 12; a KeyError past the last row
   * or without a CPI column; otherwise `(current / prior - 1) * 100` in
   * numpy arithmetic, NaN when either value is missing.
   */
  function ComputeAnnualCpi(columns: set<string>, rows: seq<LegacyRow>, end: int): (r: LegacyAnnual)
    ensures r.NoAnnual? <==> end < 12
    ensures r.KeyError? <==> 12 <= end && (end >= |rows| || "CPI" !in columns)
    ensures r.Annual? ==> (12 <= end < |rows| &&
      match (Cell(rows[end], "CPI"), Cell(rows[end - 12], "CPI"))
      case (Some(c), Some(p)) => r.percent == PercentChange(c, p)
      case _ => r.percent.NaN?)
  {
    if end < 12 then NoAnnual
    else if end >= |rows| || "CPI" !in columns then KeyError
    else
      match (Cell(rows[end], "CPI"), Cell(rows[end - 12], "CPI"))
      case (Some(c), Some(p)) => Annual(PercentChange(c, p))
      case _ => Annual(NaN)
  }

  /**
   * Unlike the pipeline's version, the legacy annual change has no zero
   * guard: a zero prior value gives an infinity or NaN rather than None.
   */
  lemma AnnualZeroPrior(columns: set<string>, rows: seq<LegacyRow>, end: int)
    requires 12 <= end < |rows| && "CPI" in columns
    requires Cell(rows[end - 12], "CPI") == Some(0.0)
    ensures ComputeAnnualCpi(columns, rows, end).Annual?
    ensures !ComputeAnnualCpi(columns, rows, end).percent.Finite?
  {
  }
}
