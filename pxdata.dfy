/**
 * PX-Web records and the `(month string, code)`-keyed tables that the CPI
 * and wage sources build from them, with the queries both sources share.
 */
module PxData {
  import opened Wrappers
  import opened Text
  import opened Calendar

  /**
   * One cell of a record's `values` list, as `float(cell)` sees it: a number
   * (or numeric text), text `float` rejects with ValueError (such as the "."
   * sentinel), or a null, list or object, which it rejects with TypeError.
   */
  datatype Cell = Numeric(v: real) | NotNumeric | WrongType

  /** One record of a PX-Web response: its `key` tokens and, when the field is present, its `values`. */
  datatype Entry = Entry(key: seq<string>, values: Option<seq<Cell>>)

  /** `float(values[0])`, or None where that raises IndexError, ValueError or TypeError. */
  function FirstNumber(values: seq<Cell>): (r: Option<real>)
    ensures r.Some? <==> |values| > 0 && values[0].Numeric?
    ensures r.Some? ==> r.value == values[0].v
  {
    if |values| > 0 && values[0].Numeric? then Some(values[0].v) else None
  }

  /** `next((k for k in key if p(k)), None)` */
  function FirstToken(key: seq<string>, p: string -> bool): Option<string> {
    if |key| == 0 then None
    else if p(key[0]) then Some(key[0])
    else FirstToken(key[1..], p)
  }

  /** The token found is the first one that matches, and None means none matches. */
  lemma {:induction false} FirstTokenIsFirst(key: seq<string>, p: string -> bool)
    ensures FirstToken(key, p).None? <==> forall i :: 0 <= i < |key| ==> !p(key[i])
    ensures FirstToken(key, p).Some? ==>
      exists i :: 0 <= i < |key| && key[i] == FirstToken(key, p).value && p(key[i]) &&
                  (forall j :: 0 <= j < i ==> !p(key[j]))
  {
    if |key| > 0 && !p(key[0]) {
      FirstTokenIsFirst(key[1..], p);
      if FirstToken(key, p).Some? {
        var i :| 0 <= i < |key| - 1 && key[1..][i] == FirstToken(key, p).value && p(key[1..][i]) &&
                 (forall j :: 0 <= j < i ==> !p(key[1..][j]));
        assert key[i + 1] == FirstToken(key, p).value;
        assert forall j :: 0 <= j < i + 1 ==> !p(key[j]) by {
          forall j | 0 <= j < i + 1 ensures !p(key[j]) {
            if j > 0 { assert key[j] == key[1..][j - 1]; }
          }
        }
      }
    } else if |key| > 0 {
      assert key[0] == FirstToken(key, p).value;
    }
  }

  /** A table `{(month_str, code): value}`. */
  type Table = map<(string, string), real>

  /** What one pass of a record loop writes: `table[(date, code)] = value`. */
  datatype Write = Write(date: string, code: string, value: real)

  /** The table a record loop leaves after `data`, when `judge` says what each record writes. */
  function Apply(data: seq<Entry>, judge: Entry -> Option<Write>): Table
    decreases |data|
  {
    if |data| == 0 then map[]
    else
      var t := Apply(data[..|data| - 1], judge);
      match judge(data[|data| - 1])
      case Some(w) => t[(w.date, w.code) := w.value]
      case None => t
  }

  /** The codes (or categories) a record loop adds to its set of codes. */
  function CodesWritten(data: seq<Entry>, judge: Entry -> Option<Write>): set<string>
    decreases |data|
  {
    if |data| == 0 then {}
    else
      var cs := CodesWritten(data[..|data| - 1], judge);
      match judge(data[|data| - 1])
      case Some(w) => cs + {w.code}
      case None => cs
  }

  /** `judge` writes `k` when given `e`. */
  predicate WritesKey(judge: Entry -> Option<Write>, e: Entry, k: (string, string)) {
    judge(e).Some? && (judge(e).value.date, judge(e).value.code) == k
  }

  /** Every key of the table was written by some record, and no later record writes it again: the last write wins. */
  lemma {:induction false} ApplyIsLastWrite(data: seq<Entry>, judge: Entry -> Option<Write>, k: (string, string))
    requires k in Apply(data, judge)
    ensures exists i :: 0 <= i < |data| && judge(data[i]) == Some(Write(k.0, k.1, Apply(data, judge)[k])) &&
                        (forall j :: i < j < |data| ==> !WritesKey(judge, data[j], k))
    decreases |data|
  {
    var n := |data| - 1;
    var prefix := data[..n];
    assert forall j :: 0 <= j < n ==> prefix[j] == data[j];
    if WritesKey(judge, data[n], k) {
      assert judge(data[n]) == Some(Write(k.0, k.1, Apply(data, judge)[k]));
    } else {
      ApplyIsLastWrite(prefix, judge, k);
      var i :| 0 <= i < n && judge(prefix[i]) == Some(Write(k.0, k.1, Apply(prefix, judge)[k])) &&
               (forall j :: i < j < n ==> !WritesKey(judge, prefix[j], k));
      assert judge(data[i]) == Some(Write(k.0, k.1, Apply(data, judge)[k]));
    }
  }

  /** A record whose write no later record repeats leaves its value in the table. */
  lemma {:induction false} ApplyKeepsLast(data: seq<Entry>, judge: Entry -> Option<Write>, i: nat)
    requires i < |data| && judge(data[i]).Some?
    requires forall j :: i < j < |data| ==> !WritesKey(judge, data[j], (judge(data[i]).value.date, judge(data[i]).value.code))
    ensures (judge(data[i]).value.date, judge(data[i]).value.code) in Apply(data, judge)
    ensures Apply(data, judge)[(judge(data[i]).value.date, judge(data[i]).value.code)] == judge(data[i]).value.value
    decreases |data|
  {
    var n := |data| - 1;
    if i < n {
      var prefix := data[..n];
      assert prefix[i] == data[i];
      assert forall j :: i < j < n ==> prefix[j] == data[j];
      ApplyKeepsLast(prefix, judge, i);
    }
  }

  /** The set of codes holds exactly the codes that appear in the table's keys. */
  lemma {:induction false} CodesWrittenAreKeys(data: seq<Entry>, judge: Entry -> Option<Write>)
    ensures forall k :: k in Apply(data, judge) ==> k.1 in CodesWritten(data, judge)
    ensures forall c :: c in CodesWritten(data, judge) ==> exists d :: (d, c) in Apply(data, judge)
    decreases |data|
  {
    if |data| > 0 {
      var prefix := data[..|data| - 1];
      CodesWrittenAreKeys(prefix, judge);
      forall c | c in CodesWritten(data, judge)
        ensures exists d :: (d, c) in Apply(data, judge)
      {
        match judge(data[|data| - 1]) {
          case Some(w) =>
            if w.code == c {
              assert (w.date, c) in Apply(data, judge);
            } else {
              assert c in CodesWritten(prefix, judge);
              var d :| (d, c) in Apply(prefix, judge);
              assert (d, c) in Apply(data, judge);
            }
          case None =>
            assert c in CodesWritten(prefix, judge);
            var d :| (d, c) in Apply(prefix, judge);
            assert (d, c) in Apply(data, judge);
        }
      }
    }
  }

  /** `[d for (d, c) in table if c == code]`, as a set. */
  function MonthsFor(t: Table, code: string): (ms: set<string>)
    ensures forall d :: d in ms <==> (d, code) in t
  {
    set k | k in t && k.1 == code :: k.0
  }

  /** `max(dates)` with the value stored under it, or None when the code has no entries. */
  function Latest(t: Table, code: string): (r: Option<(string, real)>)
    ensures r.None? <==> forall d :: (d, code) !in t
    ensures r.Some? ==> (r.value.0, code) in t && r.value.1 == t[(r.value.0, code)]
    ensures r.Some? ==> forall d :: (d, code) in t && d != r.value.0 ==> StrLess(d, r.value.0)
  {
    var ms := MonthsFor(t, code);
    if ms == {} then None
    else
      var last := Greatest(ms);
      Some((last, t[(last, code)]))
  }

  lemma ParseCompactInjectiveAll()
    ensures forall s, u :: ParseCompact(s).Some? && ParseCompact(s) == ParseCompact(u) ==> s == u
  {
    forall s, u | ParseCompact(s).Some? && ParseCompact(s) == ParseCompact(u) {
      ParseCompactInjective(s, u);
    }
  }

  /**
   * The entries of `code` whose month string strptime("%YM%m") accepts,
   * keyed by the parsed month. Two accepted strings never name the same month.
   */
  function SeriesOf(t: Table, code: string): (s: map<Month, real>)
    ensures forall m :: m in s ==> InDateRange(m) && (FormatCompact(m), code) in t && s[m] == t[(FormatCompact(m), code)]
  {
    ParseCompactInjectiveAll();
    var s := map k | k in t && k.1 == code && ParseCompact(k.0).Some? :: ParseCompact(k.0).value := t[k];
    assert forall m :: m in s ==> InDateRange(m) && (FormatCompact(m), code) in t && s[m] == t[(FormatCompact(m), code)] by {
      forall m | m in s
        ensures InDateRange(m) && (FormatCompact(m), code) in t && s[m] == t[(FormatCompact(m), code)]
      {
        var k :| k in t && k.1 == code && ParseCompact(k.0) == Some(m);
        CompactRoundTrip(m, k.0);
      }
    }
    s
  }

  /** Every entry of `code` with a real calendar month is in the series: nothing else is dropped. */
  lemma {:induction false} SeriesOfComplete(t: Table, code: string, d: string)
    requires (d, code) in t && ParseCompact(d).Some?
    ensures ParseCompact(d).value in SeriesOf(t, code)
    ensures SeriesOf(t, code)[ParseCompact(d).value] == t[(d, code)]
  {
    var m := ParseCompact(d).value;
    CompactRoundTrip(m, d);
    ParseCompactInjectiveAll();
  }

  /** Rows in strictly increasing date order. */
  predicate AscendingRows(rows: seq<(Month, real)>) {
    forall i, j :: 0 <= i < j < |rows| ==> Index(rows[i].0) < Index(rows[j].0)
  }

  function Values(rows: seq<(Month, real)>): (vs: seq<real>)
    ensures |vs| == |rows|
    ensures forall i :: 0 <= i < |rows| ==> vs[i] == rows[i].1
  {
    seq(|rows|, i requires 0 <= i < |rows| => rows[i].1)
  }

  function RowsAt(ms: seq<Month>, s: map<Month, real>): (rows: seq<(Month, real)>)
    requires forall i :: 0 <= i < |ms| ==> ms[i] in s
    ensures |rows| == |ms|
    ensures forall i :: 0 <= i < |ms| ==> rows[i] == (ms[i], s[ms[i]])
  {
    seq(|ms|, i requires 0 <= i < |ms| => (ms[i], s[ms[i]]))
  }

  lemma RowsAtCover(ms: seq<Month>, s: map<Month, real>)
    requires forall i :: 0 <= i < |ms| ==> ms[i] in s
    requires forall m :: m in s ==> m in ms
    ensures forall m :: m in s ==> exists i :: 0 <= i < |ms| && RowsAt(ms, s)[i].0 == m
  {
    forall m | m in s
      ensures exists i :: 0 <= i < |ms| && RowsAt(ms, s)[i].0 == m
    {
      var i :| 0 <= i < |ms| && ms[i] == m;
      assert RowsAt(ms, s)[i].0 == m;
    }
  }

  /** The pairs of a month-keyed map in calendar order: `rows.sort(key=lambda t: t[0])`. */
  function SortedRows(s: map<Month, real>): (rows: seq<(Month, real)>)
    ensures |rows| == |s|
    ensures AscendingRows(rows)
    ensures forall i :: 0 <= i < |rows| ==> rows[i].0 in s && rows[i].1 == s[rows[i].0]
    ensures forall m :: m in s ==> exists i :: 0 <= i < |rows| && rows[i].0 == m
  {
    var ms := SortedMonths(s.Keys);
    assert forall i :: 0 <= i < |ms| ==> ms[i] in s.Keys;
    assert |s.Keys| == |s|;
    RowsAtCover(ms, s);
    RowsAt(ms, s)
  }

  /** A map that holds exactly the parsed entries of `code` is the series of `code`. */
  lemma SeriesOfExact(t: Table, code: string, acc: map<Month, real>)
    requires forall m :: m in acc ==> InDateRange(m) && (FormatCompact(m), code) in t && acc[m] == t[(FormatCompact(m), code)]
    requires forall k :: k in t && k.1 == code && ParseCompact(k.0).Some? ==> ParseCompact(k.0).value in acc
    ensures acc == SeriesOf(t, code)
  {
    var series := SeriesOf(t, code);
    forall m | m in series
      ensures m in acc
    {
      CompactRoundTrip(m, FormatCompact(m));
    }
    forall m | m in acc
      ensures m in series && series[m] == acc[m]
    {
      CompactRoundTrip(m, FormatCompact(m));
      SeriesOfComplete(t, code, FormatCompact(m));
    }
  }

  /**
   * The loop of `get_series` / `get_isnr_series`: walk the table's items,
   * keep those of `code` whose month parses, then sort by date.
   */
  method CollectSeries(t: Table, code: string) returns (rows: seq<(Month, real)>)
    ensures rows == SortedRows(SeriesOf(t, code))
  {
    var acc: map<Month, real> := map[];
    var todo := t.Keys;
    ghost var done: set<(string, string)> := {};
    while todo != {}
      invariant todo == t.Keys - done && done <= t.Keys
      invariant forall m :: m in acc ==> InDateRange(m) && (FormatCompact(m), code) in done && acc[m] == t[(FormatCompact(m), code)]
      invariant forall k :: k in done && k.1 == code && ParseCompact(k.0).Some? ==> ParseCompact(k.0).value in acc
      decreases |todo|
    {
      var k :| k in todo;
      if k.1 == code && ParseCompact(k.0).Some? {
        var m := ParseCompact(k.0).value;
        CompactRoundTrip(m, k.0);
        acc := acc[m := t[k]];
      }
      todo := todo - {k};
      done := done + {k};
    }
    SeriesOfExact(t, code, acc);
    rows := SortedRows(acc);
  }
}
