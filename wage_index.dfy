/**
 * The wage index source: its record loop infers a category from the key
 * tokens that are not the month, and keeps `{(month string, category): value}`.
 */
module WageIndexSource {
  import opened Wrappers
  import opened Text
  import opened Calendar
  import opened PxData

  /** The codes the loop prefers as a category when one of them is among the tokens. */
  predicate IsNiceCode(k: string) {
    k == "TOTAL" || k == "ALM" || k == "OPI" || k == "OPI_R" || k == "OPI_L"
  }

  /** `[k for i, k in enumerate(keys) if i != month_idx]` */
  function Without(keys: seq<string>, i: nat): seq<string>
    requires i < |keys|
  {
    keys[..i] + keys[i + 1..]
  }

  /** `nice or (non_month[0] if len(non_month) == 1 else ":".join(non_month)) or "TOTAL"` */
  function Category(nonMonth: seq<string>): string {
    match FirstToken(nonMonth, IsNiceCode)
    case Some(nice) => nice
    case None =>
      var c := if |nonMonth| == 1 then nonMonth[0] else Join(nonMonth, ':');
      if c == "" then "TOTAL" else c
  }

  /** The category rule, tier by tier; the category is never empty. */
  lemma CategoryRule(nonMonth: seq<string>)
    ensures Category(nonMonth) != ""
    ensures (exists i :: 0 <= i < |nonMonth| && IsNiceCode(nonMonth[i])) ==>
      exists i :: 0 <= i < |nonMonth| && Category(nonMonth) == nonMonth[i] && IsNiceCode(nonMonth[i]) &&
                  forall j :: 0 <= j < i ==> !IsNiceCode(nonMonth[j])
    ensures (forall i :: 0 <= i < |nonMonth| ==> !IsNiceCode(nonMonth[i])) ==>
      Category(nonMonth) ==
        if |nonMonth| == 0 || nonMonth == [""] then "TOTAL"
        else if |nonMonth| == 1 then nonMonth[0]
        else Join(nonMonth, ':')
  {
    FirstTokenIsFirst(nonMonth, IsNiceCode);
  }

  /**
   * One pass of the constructor loop: records with no key tokens, no
   * values, no month token or a non-numeric first value write nothing; a
   * missing `values` field reads as the empty list.
   */
  function JudgeWage(e: Entry): Option<Write> {
    var vals := e.values.GetOr([]);
    if |e.key| == 0 || |vals| == 0 then None
    else
      match FirstIndex(e.key, IsMonthToken)
      case None => None
      case Some(i) =>
        match FirstNumber(vals)
        case None => None
        case Some(x) => Some(Write(e.key[i], Category(Without(e.key, i)), x))
  }

  /** The acceptance rule: kept exactly when there is a month token and a numeric first value; the month is the first such token. */
  lemma JudgeWageRule(e: Entry)
    ensures JudgeWage(e).Some? <==>
      (exists i :: 0 <= i < |e.key| && IsMonthToken(e.key[i])) &&
      e.values.Some? && |e.values.value| > 0 && e.values.value[0].Numeric?
    ensures JudgeWage(e).Some? ==>
      exists i :: 0 <= i < |e.key| && e.key[i] == JudgeWage(e).value.date && IsMonthToken(e.key[i]) &&
                  (forall j :: 0 <= j < i ==> !IsMonthToken(e.key[j])) &&
                  JudgeWage(e).value.code == Category(Without(e.key, i)) &&
                  JudgeWage(e).value.value == e.values.value[0].v
  {
    FirstIndexIsFirst(e.key, IsMonthToken);
  }

  class WageIndex {
    /** `{(month_str, category): value}` */
    var index: Table
    var categories: set<string>

    /** Every category of the table is listed, and every listed category has an entry. */
    predicate Valid()
      reads this
    {
      (forall k :: k in index ==> k.1 in categories) &&
      (forall c :: c in categories ==> MonthsFor(index, c) != {})
    }

    /** `WageIndex.__init__` after the fetch: the record loop over `data`. */
    constructor (data: seq<Entry>)
      ensures index == Apply(data, JudgeWage) && categories == CodesWritten(data, JudgeWage)
      ensures Valid()
    {
      index := map[];
      categories := {};
      new;
      var i := 0;
      while i < |data|
        invariant 0 <= i <= |data|
        invariant index == Apply(data[..i], JudgeWage) && categories == CodesWritten(data[..i], JudgeWage)
      {
        assert data[..i + 1][..i] == data[..i];
        match JudgeWage(data[i]) {
          case None =>
          case Some(w) =>
            index := index[(w.date, w.code) := w.value];
            categories := categories + {w.code};
        }
        i := i + 1;
      }
      assert data[..i] == data;
      CodesWrittenAreKeys(data, JudgeWage);
    }

    /** `list_categories`: the categories, sorted and without duplicates. */
    function ListCategories(): (r: seq<string>)
      reads this
      ensures StrictlyAscending(r)
      ensures forall c :: c in r <==> c in categories
      ensures |r| == |categories|
    {
      SortedStrings(categories)
    }

    /** `months`: every month string of the table once, sorted. */
    function Months(): (r: seq<string>)
      reads this
      ensures StrictlyAscending(r)
      ensures forall m :: m in r <==> exists c :: (m, c) in index
    {
      var ms := set k | k in index :: k.0;
      assert forall m :: m in ms <==> exists c :: (m, c) in index by {
        forall m | m in ms
          ensures exists c :: (m, c) in index
        {
          var k :| k in index && k.0 == m;
          assert (m, k.1) in index;
        }
      }
      SortedStrings(ms)
    }

    /** `get_series`: the category's entries with a real calendar month, in date order. */
    method GetSeries(category: string) returns (rows: seq<(Month, real)>)
      ensures rows == SortedRows(SeriesOf(index, category))
      ensures AscendingRows(rows)
      ensures forall i :: 0 <= i < |rows| ==> (FormatCompact(rows[i].0), category) in index &&
                                               rows[i].1 == index[(FormatCompact(rows[i].0), category)]
    {
      rows := CollectSeries(index, category);
      SortedSeriesInTable(index, category);
    }

    /** `latest`: None for an unknown category, else its greatest month string and value. */
    function Latest(category: string): (r: Option<(string, real)>)
      reads this
      ensures r.None? <==> forall d :: (d, category) !in index
      ensures r.Some? ==> (r.value.0, category) in index && r.value.1 == index[(r.value.0, category)]
      ensures r.Some? ==> forall d :: (d, category) in index && d != r.value.0 ==> StrLess(d, r.value.0)
    {
      PxData.Latest(index, category)
    }
  }

  /** Every row of the sorted series is an entry of the table, under its month's compact form. */
  lemma SortedSeriesInTable(w: Table, category: string)
    ensures var rows := SortedRows(SeriesOf(w, category));
            forall i :: 0 <= i < |rows| ==> (FormatCompact(rows[i].0), category) in w &&
                                            rows[i].1 == w[(FormatCompact(rows[i].0), category)]
  {
    var series := SeriesOf(w, category);
    RowsFromTable(w, category, series, SortedRows(series));
  }

  lemma RowsFromTable(w: Table, category: string, series: map<Month, real>, rows: seq<(Month, real)>)
    requires forall m :: m in series ==> InDateRange(m) && (FormatCompact(m), category) in w && series[m] == w[(FormatCompact(m), category)]
    requires forall i :: 0 <= i < |rows| ==> rows[i].0 in series && rows[i].1 == series[rows[i].0]
    ensures forall i :: 0 <= i < |rows| ==> (FormatCompact(rows[i].0), category) in w &&
                                            rows[i].1 == w[(FormatCompact(rows[i].0), category)]
  {
  }

  /** Every entry of the category with a real calendar month appears as a series row: `get_series` drops nothing else. */
  lemma GetSeriesKeepsEntry(w: Table, category: string, d: string)
    requires (d, category) in w && ParseCompact(d).Some?
    ensures exists i :: 0 <= i < |SortedRows(SeriesOf(w, category))| &&
                        SortedRows(SeriesOf(w, category))[i].0 == ParseCompact(d).value &&
                        SortedRows(SeriesOf(w, category))[i].1 == w[(d, category)]
  {
    var series := SeriesOf(w, category);
    SeriesOfComplete(w, category, d);
    var rows := SortedRows(series);
    var m := ParseCompact(d).value;
    var i :| 0 <= i < |rows| && rows[i].0 == m;
    assert rows[i].1 == series[m];
  }
}
