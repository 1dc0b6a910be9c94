/**
 * The CPI data source: the two record loops of its constructor (index
 * values and weights, both keyed by `(month string, code)`) and its
 * query methods.
 */
module CpiSource {
  import opened Wrappers
  import opened Text
  import opened Calendar
  import opened PxData
  import opened Numbers

  // ---------------------------------------------------------------------
  // The record loop
  // ---------------------------------------------------------------------

  /** What one pass of the record loop does with an entry. */
  datatype Verdict = Store(date: string, code: string, value: real) | Skip | Raise

  predicate HasToken(key: seq<string>, p: string -> bool) {
    exists i :: 0 <= i < |key| && p(key[i])
  }

  /**
   * One pass of the loop: the first month token and the first code token of
   * the key, and the first value as a float.
   */
  function Judge(e: Entry): Verdict {
    if |e.key| == 0 then Skip
    else
      match (FirstToken(e.key, IsMonthToken), FirstToken(e.key, IsCodeToken))
      case (Some(d), Some(c)) =>
        (match e.values
         case None => Raise
         case Some(vals) =>
           match FirstNumber(vals)
           case Some(x) => Store(d, c, x)
           case None => Skip)
      case _ => Skip
  }

  /**
   * The acceptance rule: a record is stored only when its key has a month
   * token and a code token and its first value is numeric; otherwise it is
   * skipped, except that a record with both tokens but no `values` field
   * raises KeyError, which the loop does not catch.
   */
  lemma JudgeRule(e: Entry)
    ensures Judge(e).Store? ==>
      IsMonthToken(Judge(e).date) && Judge(e).date in e.key && IsCodeToken(Judge(e).code) && Judge(e).code in e.key &&
      e.values.Some? && |e.values.value| > 0 && e.values.value[0] == Numeric(Judge(e).value)
    ensures !HasToken(e.key, IsMonthToken) || !HasToken(e.key, IsCodeToken) ==> Judge(e).Skip?
    ensures HasToken(e.key, IsMonthToken) && HasToken(e.key, IsCodeToken) ==>
      (Judge(e).Raise? <==> e.values.None?) &&
      (Judge(e).Store? <==> e.values.Some? && |e.values.value| > 0 && e.values.value[0].Numeric?)
  {
    FirstTokenIsFirst(e.key, IsMonthToken);
    FirstTokenIsFirst(e.key, IsCodeToken);
  }

  /** The first date token the rule stores is the first month token of the key. */
  lemma JudgeTakesFirstTokens(e: Entry, i: nat)
    requires Judge(e).Store? && i < |e.key|
    ensures IsMonthToken(e.key[i]) && e.key[i] != Judge(e).date ==> exists j :: 0 <= j < i && e.key[j] == Judge(e).date
    ensures IsCodeToken(e.key[i]) && e.key[i] != Judge(e).code ==> exists j :: 0 <= j < i && e.key[j] == Judge(e).code
  {
    FirstTokenIsFirst(e.key, IsMonthToken);
    FirstTokenIsFirst(e.key, IsCodeToken);
  }

  predicate Raises(data: seq<Entry>) {
    exists i :: 0 <= i < |data| && Judge(data[i]).Raise?
  }

  /** What an accepted record writes into the table. */
  function CpiWrite(e: Entry): Option<Write> {
    match Judge(e)
    case Store(d, c, x) => Some(Write(d, c, x))
    case _ => None
  }

  /** The table the loop leaves after `data`, a later record overwriting an earlier one. */
  function Stored(data: seq<Entry>): Table {
    Apply(data, CpiWrite)
  }

  /** The codes the loop adds to `isnr_values`. */
  function Codes(data: seq<Entry>): set<string> {
    CodesWritten(data, CpiWrite)
  }

  // ---------------------------------------------------------------------
  // Picking the index series out of the table metadata
  // ---------------------------------------------------------------------

  /** `index_B` followed by four digits starts at position `i` of `v`, letters matched case-insensitively. */
  predicate IndexMarkAt(v: string, i: int) {
    0 <= i && i + 11 <= |v| && EqualsIgnoringCase(v[i..i + 7], "index_b") && AllDigits(v[i + 7..i + 11])
  }

  function IndexBaseFrom(v: string, i: nat): Option<nat>
    decreases |v| - i
  {
    if i + 11 > |v| then None
    else if IndexMarkAt(v, i) then Some(ValueOf4(v[i + 7..i + 11]))
    else IndexBaseFrom(v, i + 1)
  }

  /** The base year of `re.search(r"index_B(\d{4})", v, re.IGNORECASE)`, None when it finds nothing. */
  function IndexBaseYear(v: string): Option<nat> {
    IndexBaseFrom(v, 0)
  }

  lemma IndexBaseFromSpec(v: string, i: nat)
    ensures IndexBaseFrom(v, i).None? <==> forall j :: i <= j ==> !IndexMarkAt(v, j)
    ensures IndexBaseFrom(v, i).Some? ==>
      exists j :: i <= j && IndexMarkAt(v, j) && IndexBaseFrom(v, i).value == ValueOf4(v[j + 7..j + 11]) &&
                  forall k :: i <= k < j ==> !IndexMarkAt(v, k)
  {
    IndexBaseFromNone(v, i);
    if IndexBaseFrom(v, i).Some? {
      IndexBaseFromSome(v, i);
    }
  }

  lemma {:induction false} IndexBaseFromNone(v: string, i: nat)
    ensures IndexBaseFrom(v, i).None? <==> forall j :: i <= j ==> !IndexMarkAt(v, j)
    decreases |v| - i
  {
    if i + 11 <= |v| && !IndexMarkAt(v, i) {
      IndexBaseFromNone(v, i + 1);
      if IndexBaseFrom(v, i).None? {
        forall j | i <= j
          ensures !IndexMarkAt(v, j)
        {
          if j != i {
            assert i + 1 <= j;
          }
        }
      }
    }
  }

  lemma {:induction false} IndexBaseFromSome(v: string, i: nat)
    requires IndexBaseFrom(v, i).Some?
    ensures exists j :: i <= j && IndexMarkAt(v, j) && IndexBaseFrom(v, i).value == ValueOf4(v[j + 7..j + 11]) &&
                        forall k :: i <= k < j ==> !IndexMarkAt(v, k)
    decreases |v| - i
  {
    if !IndexMarkAt(v, i) {
      IndexBaseFromSome(v, i + 1);
      var j :| i + 1 <= j && IndexMarkAt(v, j) && IndexBaseFrom(v, i + 1).value == ValueOf4(v[j + 7..j + 11]) &&
               forall k :: i + 1 <= k < j ==> !IndexMarkAt(v, k);
      assert forall k :: i <= k < j ==> !IndexMarkAt(v, k);
    }
  }

  /** The search finds the leftmost mark: its year is read from the first position where a mark starts. */
  lemma IndexBaseYearIsLeftmost(v: string)
    ensures IndexBaseYear(v).None? <==> forall j :: !IndexMarkAt(v, j)
    ensures IndexBaseYear(v).Some? ==>
      exists j :: IndexMarkAt(v, j) && IndexBaseYear(v).value == ValueOf4(v[j + 7..j + 11]) &&
                  forall k :: 0 <= k < j ==> !IndexMarkAt(v, k)
  {
    IndexBaseFromSpec(v, 0);
    if IndexBaseYear(v).None? {
      forall j
        ensures !IndexMarkAt(v, j)
      {
        if j < 0 {
          assert !IndexMarkAt(v, j);
        }
      }
    }
  }

  /** The `(year, value)` candidate `a` sorts before `b`, as Python orders tuples. */
  predicate CandidateLess(a: (nat, string), b: (nat, string)) {
    a.0 < b.0 || (a.0 == b.0 && StrLess(a.1, b.1))
  }

  /** `_latest_index_value`: the last of the sorted `(base year, value)` candidates. */
  function LatestIndexValue(values: seq<string>): Option<string>
    decreases |values|
  {
    if |values| == 0 then None
    else
      var rest := LatestIndexValue(values[1..]);
      match IndexBaseYear(values[0])
      case None => rest
      case Some(y) =>
        match rest
        case None => Some(values[0])
        case Some(w) =>
          if CandidateLess((y, values[0]), (IndexBaseYear(w).GetOr(0), w)) then rest else Some(values[0])
  }

  lemma {:induction false} LatestIndexValueSpec(values: seq<string>)
    ensures LatestIndexValue(values).None? <==> forall v :: v in values ==> IndexBaseYear(v).None?
    ensures LatestIndexValue(values).Some? ==>
      var w := LatestIndexValue(values).value;
      w in values && IndexBaseYear(w).Some? &&
      forall v :: v in values && IndexBaseYear(v).Some? && v != w ==>
        CandidateLess((IndexBaseYear(v).value, v), (IndexBaseYear(w).value, w))
    decreases |values|
  {
    if |values| > 0 {
      var rest := values[1..];
      LatestIndexValueSpec(rest);
      assert forall v :: v in values <==> v == values[0] || v in rest;
      var r := LatestIndexValue(values);
      match IndexBaseYear(values[0]) {
        case None =>
        case Some(y) =>
          match LatestIndexValue(rest) {
            case None =>
            case Some(w) =>
              var yw := IndexBaseYear(w).value;
              if CandidateLess((y, values[0]), (yw, w)) {
                assert r == Some(w);
              } else {
                assert r == Some(values[0]);
                StrLessTotal(values[0], w);
                forall v | v in values && IndexBaseYear(v).Some? && v != values[0]
                  ensures CandidateLess((IndexBaseYear(v).value, v), (y, values[0]))
                {
                  if v != w {
                    assert CandidateLess((IndexBaseYear(v).value, v), (yw, w));
                    if IndexBaseYear(v).value == yw && yw == y && w != values[0] {
                      StrLessTransitive(v, w, values[0]);
                    }
                  }
                }
              }
          }
      }
    }
  }

  /** The PX-Web `selection` object: `{"filter": "all", "values": ["*"]}` or an item list. */
  datatype Selection = All | Item(values: seq<string>)

  /**
   * `_selection_for_variable`: the latest index base if any value names
   * one, then ISNR-code lists, then month lists (all or every value), then
   * the literal "index", else the first value. Every variable the query
   * builder passes has at least one value.
   */
  function SelectionForVariable(values: seq<string>, useAll: bool): (r: Selection)
    requires |values| > 0
  {
    match LatestIndexValue(values)
    case Some(v) => Item([v])
    case None =>
      if exists v :: v in values && IsIsnrToken(v) then
        if useAll then All else Item(values)
      else if exists v :: v in values && IsMonthToken(v) then
        if useAll then All else Item(values)
      else if exists v :: v in values && EqualsIgnoringCase(v, "index") then
        Item(["index"])
      else
        Item([values[0]])
  }

  /**
   * The selection picks one tier in priority order, and never names
   * anything but the variable's own values and the literal "index".
   */
  lemma SelectionPriority(values: seq<string>, useAll: bool)
    requires |values| > 0
    ensures (exists v :: v in values && IndexBaseYear(v).Some?) ==>
      exists v :: v in values && IndexBaseYear(v).Some? && SelectionForVariable(values, useAll) == Item([v])
    ensures (forall v :: v in values ==> IndexBaseYear(v).None?) &&
            (exists v :: v in values && (IsIsnrToken(v) || IsMonthToken(v))) ==>
      SelectionForVariable(values, useAll) == if useAll then All else Item(values)
    ensures SelectionForVariable(values, useAll).All? ==> useAll
    ensures SelectionForVariable(values, useAll).Item? ==>
      var xs := SelectionForVariable(values, useAll).values;
      |xs| > 0 && forall x :: x in xs ==> x in values || x == "index"
    ensures (forall v :: v in values ==>
               (IndexBaseYear(v).None? && !IsIsnrToken(v) && !IsMonthToken(v) && !EqualsIgnoringCase(v, "index"))) ==>
      SelectionForVariable(values, useAll) == Item([values[0]])
  {
    LatestIndexValueSpec(values);
  }

  // ---------------------------------------------------------------------
  // The data source object
  // ---------------------------------------------------------------------

  datatype Current = NoData | Current(month: string, value: real)

  datatype YearChange =
    | NoDataFor
    | InvalidDate
    | YearOutOfRange
    | Insufficient
    | DivisionByZero
    | Change(from: string, to: string, percent: real)

  /** Per-code outcome of `get_increase_over_months`. */
  datatype Shift = Skipped | OutOfRange | Increase(percent: real)

  datatype ChangeStats = NotEnoughData | NoValidChange | Changes(percents: seq<real>, average: real)

  function Sum(xs: seq<real>): real {
    if |xs| == 0 then 0.0 else Sum(xs[..|xs| - 1]) + xs[|xs| - 1]
  }

  /** `statistics.mean`: the value whose `|xs|`-fold is the sum. */
  function Mean(xs: seq<real>): (r: real)
    requires |xs| > 0
    ensures r * (|xs| as real) == Sum(xs)
  {
    Sum(xs) / (|xs| as real)
  }

  /** The month string `k` months before the month token `s`, as `get_increase_over_months` and `get_12_month_change` compute it. */
  datatype Earlier = NotAMonth | OutOfYears | Earlier(month: string)

  function MonthBefore(s: string, k: int): (r: Earlier)
    ensures r.NotAMonth? <==> ParseCompact(s).None?
    ensures r.OutOfYears? <==> ParseCompact(s).Some? && !InDateRange(AddMonths(ParseCompact(s).value, -k))
    ensures r.Earlier? ==> ParseCompact(s).Some? && ParseCompact(r.month).Some? &&
                           Index(ParseCompact(r.month).value) == Index(ParseCompact(s).value) - k
  {
    match ParseCompact(s)
    case None => NotAMonth
    case Some(m) =>
      var prev := AddMonths(m, -k);
      if !InDateRange(prev) then OutOfYears
      else
        CompactRoundTrip(prev, "");
        Earlier(FormatCompact(prev))
  }

  /** The months of `code` in `t`, newest first. */
  function NewestFirst(t: Table, code: string): (ds: seq<string>)
    ensures |ds| == |MonthsFor(t, code)|
    ensures forall d :: d in ds <==> (d, code) in t
  {
    var asc := SortedStrings(MonthsFor(t, code));
    var ds := seq(|asc|, i requires 0 <= i < |asc| => asc[|asc| - 1 - i]);
    assert forall d :: d in ds <==> d in asc by {
      forall d
        ensures d in ds <==> d in asc
      {
        if d in asc {
          var i :| 0 <= i < |asc| && asc[i] == d;
          assert ds[|asc| - 1 - i] == d;
        }
      }
    }
    ds
  }

  /** Each month comes strictly after the next one in the list. */
  lemma NewestFirstDescending(t: Table, code: string)
    ensures var ds := NewestFirst(t, code);
            forall i, j :: 0 <= i < j < |ds| ==> StrLess(ds[j], ds[i])
  {
    var asc := SortedStrings(MonthsFor(t, code));
    var ds := NewestFirst(t, code);
    assert forall i :: 0 <= i < |ds| ==> ds[i] == asc[|asc| - 1 - i];
  }

  /** The values stored under those months, in the same order. */
  function ValuesNewestFirstOf(t: Table, code: string): (vs: seq<real>)
    ensures var ds := NewestFirst(t, code);
            |vs| == |ds| && forall i :: 0 <= i < |ds| ==> (ds[i], code) in t && vs[i] == t[(ds[i], code)]
  {
    var ds := NewestFirst(t, code);
    assert forall i :: 0 <= i < |ds| ==> ds[i] in ds;
    seq(|ds|, i requires 0 <= i < |ds| => t[(ds[i], code)])
  }

  /** The change from the `(i + 1)`-th value to the `i`-th, None for a zero base or no such pair. */
  function PairChangeOf(vs: seq<real>, i: int): (r: Option<real>)
    ensures r.None? <==> !(0 <= i && i + 1 < |vs|) || vs[i + 1] == 0.0
  {
    if 0 <= i && i + 1 < |vs| && vs[i + 1] != 0.0 then Some(GrowthPercent(vs[i], vs[i + 1])) else None
  }

  /** A pair's change is the percent change from the older value to the newer. */
  lemma PairChangeOfPercent(vs: seq<real>, i: int)
    ensures PairChangeOf(vs, i).Some? ==> IsPercentChange(PairChangeOf(vs, i).value, vs[i], vs[i + 1])
  {
  }

  /** The non-skipped changes among the first `k` pairs, newest pair first. */
  function ChangesOf(vs: seq<real>, k: nat): seq<real> {
    if k == 0 then []
    else
      ChangesOf(vs, k - 1) +
      match PairChangeOf(vs, k - 1)
      case Some(x) => [x]
      case None => []
  }

  lemma ChangesOfStep(vs: seq<real>, k: nat)
    requires k + 1 < |vs|
    ensures ChangesOf(vs, k + 1) == ChangesOf(vs, k) + if vs[k + 1] != 0.0 then [GrowthPercent(vs[k], vs[k + 1])] else []
  {
  }

  lemma {:induction false} ChangesOfSpec(vs: seq<real>, k: nat)
    ensures |ChangesOf(vs, k)| <= k
    ensures forall x :: x in ChangesOf(vs, k) <==> exists i :: 0 <= i < k && PairChangeOf(vs, i) == Some(x)
    ensures ChangesOf(vs, k) == [] <==> forall i :: 0 <= i < k ==> PairChangeOf(vs, i).None?
  {
    if k > 0 {
      ChangesOfSpec(vs, k - 1);
      var c := ChangesOf(vs, k - 1);
      var p := PairChangeOf(vs, k - 1);
      assert ChangesOf(vs, k) == c + (if p.Some? then [p.value] else []);
      forall x | exists i :: 0 <= i < k && PairChangeOf(vs, i) == Some(x)
        ensures x in ChangesOf(vs, k)
      {
        var i :| 0 <= i < k && PairChangeOf(vs, i) == Some(x);
        if i == k - 1 {
          assert ChangesOf(vs, k)[|c|] == x;
        }
      }
    }
  }

  class Cpi {
    /** `{(date, isnr): value}` */
    var index: Table
    var isnrValues: set<string>
    /** `{(date, isnr): weight}` */
    var weights: Table

    /** Every code of the table is listed, and every listed code has an entry. */
    predicate Valid()
      reads this
    {
      (forall k :: k in index ==> k.1 in isnrValues) &&
      (forall c :: c in isnrValues ==> MonthsFor(index, c) != {})
    }

    constructor Empty()
      ensures index == map[] && isnrValues == {} && weights == map[]
      ensures Valid()
    {
      index := map[];
      isnrValues := {};
      weights := map[];
    }

    /** The first loop of `__init__` (lines filling `self.index` and `self.isnr_values`). */
    method LoadIndex(data: seq<Entry>) returns (ok: bool)
      requires index == map[] && isnrValues == {}
      modifies this
      ensures ok <==> !Raises(data)
      ensures ok ==> index == Stored(data) && isnrValues == Codes(data) && Valid()
      ensures weights == old(weights)
    {
      var i := 0;
      while i < |data|
        invariant 0 <= i <= |data|
        invariant index == Stored(data[..i]) && isnrValues == Codes(data[..i])
        invariant !Raises(data[..i])
        invariant weights == old(weights)
      {
        assert data[..i + 1][..i] == data[..i];
        match Judge(data[i]) {
          case Raise =>
            assert Judge(data[..i + 1][i]).Raise?;
            return false;
          case Skip =>
          case Store(d, c, x) =>
            index := index[(d, c) := x];
            isnrValues := isnrValues + {c};
        }
        assert forall j :: 0 <= j < i ==> data[..i + 1][j] == data[..i][j];
        i := i + 1;
      }
      assert data[..i] == data;
      CodesWrittenAreKeys(data, CpiWrite);
      return true;
    }

    /** The weight loop of `__init__`: the same acceptance rule into `self.weights`. */
    method LoadWeights(data: seq<Entry>) returns (ok: bool)
      requires weights == map[]
      modifies this
      ensures ok <==> !Raises(data)
      ensures ok ==> weights == Stored(data)
      ensures index == old(index) && isnrValues == old(isnrValues)
    {
      var i := 0;
      while i < |data|
        invariant 0 <= i <= |data|
        invariant weights == Stored(data[..i])
        invariant !Raises(data[..i])
        invariant index == old(index) && isnrValues == old(isnrValues)
      {
        assert data[..i + 1][..i] == data[..i];
        match Judge(data[i]) {
          case Raise =>
            assert Judge(data[..i + 1][i]).Raise?;
            return false;
          case Skip =>
          case Store(d, c, x) =>
            weights := weights[(d, c) := x];
        }
        assert forall j :: 0 <= j < i ==> data[..i + 1][j] == data[..i][j];
        i := i + 1;
      }
      assert data[..i] == data;
      return true;
    }

    /** `get_current`: the greatest month string of the code and its value. */
    function GetCurrent(isNr: string): (r: Current)
      reads this
      ensures r.NoData? <==> forall d :: (d, isNr) !in index
      ensures r.Current? ==> (r.month, isNr) in index && r.value == index[(r.month, isNr)]
      ensures r.Current? ==> forall d :: (d, isNr) in index && d != r.month ==> StrLess(d, r.month)
    {
      match Latest(index, isNr)
      case None => NoData
      case Some((d, x)) => Current(d, x)
    }

    /** `get_12_month_change`, before rounding. */
    function Get12MonthChange(isNr: string): (r: YearChange)
      reads this
      ensures r.NoDataFor? <==> forall d :: (d, isNr) !in index
      ensures r.InvalidDate? <==> GetCurrent(isNr).Current? && MonthBefore(GetCurrent(isNr).month, 12).NotAMonth?
      ensures r.YearOutOfRange? <==> GetCurrent(isNr).Current? && MonthBefore(GetCurrent(isNr).month, 12).OutOfYears?
      ensures r.Insufficient? <==>
        GetCurrent(isNr).Current? && MonthBefore(GetCurrent(isNr).month, 12).Earlier? &&
        (MonthBefore(GetCurrent(isNr).month, 12).month, isNr) !in index
      ensures r.DivisionByZero? <==>
        GetCurrent(isNr).Current? && MonthBefore(GetCurrent(isNr).month, 12).Earlier? &&
        var p := MonthBefore(GetCurrent(isNr).month, 12).month;
        (p, isNr) in index && index[(p, isNr)] == 0.0
      ensures r.Change? ==>
        GetCurrent(isNr).Current? && r.to == GetCurrent(isNr).month &&
        MonthBefore(r.to, 12) == Earlier(r.from) && (r.from, isNr) in index &&
        IsPercentChange(r.percent, GetCurrent(isNr).value, index[(r.from, isNr)])
    {
      match Latest(index, isNr)
      case None => NoDataFor
      case Some((latest, lv)) =>
        match MonthBefore(latest, 12)
        case NotAMonth => InvalidDate
        case OutOfYears => YearOutOfRange
        case Earlier(p) =>
          if (p, isNr) !in index then Insufficient
          else
            var pv := index[(p, isNr)];
            if pv == 0.0 then DivisionByZero
            else
              GrowthPercentIsChange(lv, pv);
              Change(p, latest, GrowthPercent(lv, pv))
    }

    /** `list_is_nr_values`: the codes, sorted and without duplicates. */
    function ListIsNrValues(): (r: seq<string>)
      reads this
      ensures StrictlyAscending(r)
      ensures forall c :: c in r <==> c in isnrValues
      ensures |r| == |isnrValues|
    {
      SortedStrings(isnrValues)
    }

    /** `get_weight`: None rather than KeyError for a missing key. */
    function GetWeight(yearMonth: string, isNr: string): (r: Option<real>)
      reads this
      ensures r.Some? <==> (yearMonth, isNr) in weights
      ensures r.Some? ==> r.value == weights[(yearMonth, isNr)]
    {
      if (yearMonth, isNr) in weights then Some(weights[(yearMonth, isNr)]) else None
    }

    /** What one pass of the `get_increase_over_months` loop does for `code`. */
    function ChangeOver(code: string, n: int): (r: Shift)
      reads this
      ensures r.Increase? <==>
        GetCurrent(code).Current? && MonthBefore(GetCurrent(code).month, n).Earlier? &&
        var p := MonthBefore(GetCurrent(code).month, n).month;
        (p, code) in index && index[(p, code)] != 0.0
      ensures r.Increase? ==>
        var p := MonthBefore(GetCurrent(code).month, n).month;
        IsPercentChange(r.percent, GetCurrent(code).value, index[(p, code)])
      ensures r.OutOfRange? <==> GetCurrent(code).Current? && MonthBefore(GetCurrent(code).month, n).OutOfYears?
    {
      match Latest(index, code)
      case None => Skipped
      case Some((latest, lv)) =>
        match MonthBefore(latest, n)
        case NotAMonth => Skipped
        case OutOfYears => OutOfRange
        case Earlier(p) =>
          if (p, code) in index && index[(p, code)] != 0.0 then
            GrowthPercentIsChange(lv, index[(p, code)]);
            Increase(GrowthPercent(lv, index[(p, code)]))
          else Skipped
    }

    /**
     * `get_increase_over_months`: the percent change of every code whose
     * latest value and value `n` months earlier both exist with a non-zero
     * base; None where the date shift leaves years 1..9999 and the source raises.
     */
    method GetIncreaseOverMonths(n: int) returns (r: Option<map<string, real>>)
      ensures r.None? <==> exists c :: c in isnrValues && ChangeOver(c, n).OutOfRange?
      ensures r.Some? ==> forall c :: c in r.value <==> c in isnrValues && ChangeOver(c, n).Increase?
      ensures r.Some? ==> forall c :: c in r.value ==> r.value[c] == ChangeOver(c, n).percent
    {
      var result: map<string, real> := map[];
      var todo := isnrValues;
      while todo != {}
        invariant todo <= isnrValues
        invariant forall c :: c in isnrValues - todo ==> !ChangeOver(c, n).OutOfRange?
        invariant forall c :: c in result <==> c in isnrValues - todo && ChangeOver(c, n).Increase?
        invariant forall c :: c in result ==> result[c] == ChangeOver(c, n).percent
        decreases |todo|
      {
        var c :| c in todo;
        match ChangeOver(c, n) {
          case OutOfRange => return None;
          case Skipped =>
          case Increase(x) => result := result[c := x];
        }
        todo := todo - {c};
      }
      return Some(result);
    }

    /** Month strings of `isNr`, newest first: `sorted(..., reverse=True)`. */
    function DatesNewestFirst(isNr: string): seq<string>
      reads this
    {
      NewestFirst(index, isNr)
    }

    /** The values of `isNr`, newest month first. */
    function ValuesNewestFirst(isNr: string): seq<real>
      reads this
    {
      ValuesNewestFirstOf(index, isNr)
    }

    /** The change from the `(i + 1)`-th newest month to the `i`-th, or None for a zero base. */
    function PairChange(isNr: string, i: int): (r: Option<real>)
      reads this
      ensures r.None? <==>
        !(0 <= i && i + 1 < |DatesNewestFirst(isNr)|) ||
        index[(DatesNewestFirst(isNr)[i + 1], isNr)] == 0.0
      ensures r.Some? ==> (0 <= i && i + 1 < |DatesNewestFirst(isNr)| &&
                           var ds := DatesNewestFirst(isNr);
                           IsPercentChange(r.value, index[(ds[i], isNr)], index[(ds[i + 1], isNr)]))
    {
      PairChangeOfPercent(ValuesNewestFirst(isNr), i);
      PairChangeOf(ValuesNewestFirst(isNr), i)
    }

    /** The non-skipped pair changes among the first `k` pairs, newest pair first. */
    function ChangesUpTo(isNr: string, k: nat): seq<real>
      reads this
    {
      ChangesOf(ValuesNewestFirst(isNr), k)
    }

    /** Each collected change is the change of one of the first `k` pairs, and every valid pair contributes one. */
    lemma ChangesUpToSpec(isNr: string, k: nat)
      ensures |ChangesUpTo(isNr, k)| <= k
      ensures forall x :: x in ChangesUpTo(isNr, k) <==> exists i :: 0 <= i < k && PairChange(isNr, i) == Some(x)
      ensures ChangesUpTo(isNr, k) == [] <==> forall i :: 0 <= i < k ==> PairChange(isNr, i).None?
    {
      var vs := ValuesNewestFirst(isNr);
      ChangesOfSpec(vs, k);
      assert forall i :: PairChange(isNr, i) == PairChangeOf(vs, i);
    }

    /**
     * `get_average_and_median_change` up to the statistics: the percent
     * changes of the consecutive pairs among the `n + 1` newest months,
     * zero bases skipped, and their mean.
     */
    method AverageChange(isNr: string, n: int) returns (r: ChangeStats)
      ensures r.NotEnoughData? <==> |MonthsFor(index, isNr)| < n + 1
      ensures r.Changes? ==> n > 0 && r.percents == ChangesUpTo(isNr, n) && r.percents != []
      ensures r.Changes? ==> r.average == Mean(r.percents)
      ensures r.NoValidChange? ==> ChangesUpTo(isNr, if n > 0 then n else 0) == []
    {
      var dates := DatesNewestFirst(isNr);
      if |dates| < n + 1 {
        return NotEnoughData;
      }
      var bound: nat := if n > 0 then n else 0;
      var pcts := PairChangesLoop(index, isNr, dates, ValuesNewestFirst(isNr), bound);
      if |pcts| == 0 {
        return NoValidChange;
      }
      return Changes(pcts, Mean(pcts));
    }
  }

  /**
   * The loop of `get_average_and_median_change` over the dates newest
   * first, whose stored values are `vs`: the change of each pair whose
   * older value is not zero.
   */
  method PairChangesLoop(t: Table, isNr: string, dates: seq<string>, ghost vs: seq<real>, bound: nat)
    returns (pcts: seq<real>)
    requires |vs| == |dates| && (bound == 0 || bound + 1 <= |dates|)
    requires forall i :: 0 <= i < |dates| ==> (dates[i], isNr) in t && t[(dates[i], isNr)] == vs[i]
    ensures pcts == ChangesOf(vs, bound)
  {
    pcts := [];
    var i := 0;
    while i < bound
      invariant 0 <= i <= bound
      invariant pcts == ChangesOf(vs, i)
    {
      var older := t[(dates[i + 1], isNr)];
      var newer := t[(dates[i], isNr)];
      ChangesOfStep(vs, i);
      if older != 0.0 {
        pcts := pcts + [GrowthPercent(newer, older)];
      }
      i := i + 1;
    }
  }

  /** `CPI.__init__` after the fetches: both record loops; None where a record raises KeyError. */
  method Load(data: seq<Entry>, weightData: seq<Entry>) returns (r: Option<Cpi>)
    ensures r.None? <==> Raises(data) || Raises(weightData)
    ensures r.Some? ==> fresh(r.value) && r.value.Valid()
    ensures r.Some? ==> r.value.index == Stored(data) && r.value.isnrValues == Codes(data) && r.value.weights == Stored(weightData)
  {
    var c := new Cpi.Empty();
    var ok := c.LoadIndex(data);
    if !ok {
      return None;
    }
    ok := c.LoadWeights(weightData);
    if !ok {
      return None;
    }
    return Some(c);
  }
}
