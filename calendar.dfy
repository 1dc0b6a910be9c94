/**
 * Month-granularity calendar arithmetic. Every date the system stores is
 * the first day of a month, so a date is a (year, month) pair; `Index`
 * counts months from year 0, which makes "n months later" plain addition.
 */
module Calendar {
  import opened Wrappers
  import opened Text

  datatype YearMonth = YearMonth(year: int, month: int)

  /** A calendar month: the first day of `month` in `year`. */
  type Month = ym: YearMonth | 1 <= ym.month <= 12 witness YearMonth(1970, 1)

  /** Months since January of year 0. */
  function Index(m: Month): int {
    m.year * 12 + m.month - 1
  }

  function FromIndex(i: int): (m: Month)
    ensures Index(m) == i
  {
    YearMonth(i / 12, i % 12 + 1)
  }

  lemma IndexInjective(a: Month, b: Month)
    requires Index(a) == Index(b)
    ensures a == b
  {
  }

  /** `d + relativedelta(months=k)` / `pd.DateOffset(months=k)` on a first-of-month date. */
  function AddMonths(m: Month, k: int): (r: Month)
    ensures Index(r) == Index(m) + k
  {
    FromIndex(Index(m) + k)
  }

  /** The months 1..h after `last`, in order. */
  function MonthsAfter(last: Month, h: nat): (r: seq<Month>)
    ensures |r| == h
    ensures forall i :: 0 <= i < h ==> Index(r[i]) == Index(last) + i + 1
  {
    seq(h, i => AddMonths(last, i + 1))
  }

  /**
   * The months from `first` to `last` inclusive, in order: a walk of
   * monthly periods from one to the other. Empty when `last` comes first.
   */
  function MonthRange(first: Month, last: Month): (r: seq<Month>)
    ensures |r| == if Index(last) < Index(first) then 0 else Index(last) - Index(first) + 1
    ensures forall i :: 0 <= i < |r| ==> Index(r[i]) == Index(first) + i
    ensures InDateRange(first) && InDateRange(last) ==> forall i :: 0 <= i < |r| ==> InDateRange(r[i])
  {
    var n := if Index(last) < Index(first) then 0 else Index(last) - Index(first) + 1;
    seq(n, i => AddMonths(first, i))
  }

  /** A sequence of the range's length that counts up month by month from `first` is the range. */
  lemma MonthRangeExact(first: Month, last: Month, r: seq<Month>)
    requires |r| == if Index(last) < Index(first) then 0 else Index(last) - Index(first) + 1
    requires forall i :: 0 <= i < |r| ==> Index(r[i]) == Index(first) + i
    ensures r == MonthRange(first, last)
  {
    var expected := MonthRange(first, last);
    forall i | 0 <= i < |r|
      ensures r[i] == expected[i]
    {
      IndexInjective(r[i], expected[i]);
    }
  }

  /** The range holds exactly the months between its ends. */
  lemma MonthRangeSpan(first: Month, last: Month)
    ensures forall m :: m in MonthRange(first, last) <==> Index(first) <= Index(m) <= Index(last)
  {
    forall m
      ensures m in MonthRange(first, last) <==> Index(first) <= Index(m) <= Index(last)
    {
      MonthRangeMembers(first, last, m);
    }
  }

  /** A month is in the range exactly when it lies between the bounds, and the range is in order. */
  lemma MonthRangeMembers(first: Month, last: Month, m: Month)
    ensures m in MonthRange(first, last) <==> Index(first) <= Index(m) <= Index(last)
    ensures Ascending(MonthRange(first, last))
  {
    var r := MonthRange(first, last);
    if Index(first) <= Index(m) <= Index(last) {
      var i := Index(m) - Index(first);
      IndexInjective(r[i], m);
    }
  }

  /** Python's `datetime` accepts years 1 through 9999. */
  predicate InDateRange(m: Month) {
    1 <= m.year <= 9999
  }

  // ---------------------------------------------------------------------
  // Fixed-width decimal fields
  // ---------------------------------------------------------------------

  function DigitValue(c: char): nat
    requires IsDigit(c)
  {
    c as int - '0' as int
  }

  function DigitChar(d: nat): (c: char)
    requires d < 10
    ensures IsDigit(c) && DigitValue(c) == d
  {
    ('0' as int + d) as char
  }

  function ValueOf4(s: string): (n: nat)
    requires |s| == 4 && AllDigits(s)
    ensures n < 10000
  {
    1000 * DigitValue(s[0]) + 100 * DigitValue(s[1]) + 10 * DigitValue(s[2]) + DigitValue(s[3])
  }

  function ValueOf2(s: string): (n: nat)
    requires |s| == 2 && AllDigits(s)
    ensures n < 100
  {
    10 * DigitValue(s[0]) + DigitValue(s[1])
  }

  /** `"%04d" % n` */
  function FourDigits(n: nat): (s: string)
    requires n < 10000
    ensures |s| == 4 && AllDigits(s)
  {
    [DigitChar(n / 1000), DigitChar(n / 100 % 10), DigitChar(n / 10 % 10), DigitChar(n % 10)]
  }

  /** `"%02d" % n` */
  function TwoDigits(n: nat): (s: string)
    requires n < 100
    ensures |s| == 2 && AllDigits(s)
  {
    [DigitChar(n / 10), DigitChar(n % 10)]
  }

  lemma FourDigitsRoundTrip(n: nat)
    requires n < 10000
    ensures ValueOf4(FourDigits(n)) == n
  {
    var q1, q2, q3 := n / 10, n / 100, n / 1000;
    DivMod10(n, q1, n % 10);
    DivMod10(q1, q1 / 10, q1 % 10);
    DivMod100(n, q1 / 10, 10 * (q1 % 10) + n % 10);
    DivMod10(q2, q2 / 10, q2 % 10);
    DivMod1000(n, q2 / 10, 100 * (q2 % 10) + 10 * (q1 % 10) + n % 10);
    var s := FourDigits(n);
    assert DigitValue(s[0]) == q3 && DigitValue(s[1]) == q2 % 10;
    assert DigitValue(s[2]) == q1 % 10 && DigitValue(s[3]) == n % 10;
  }

  lemma DivMod10(n: int, q: int, r: int)
    requires n == 10 * q + r && 0 <= r < 10
    ensures n / 10 == q && n % 10 == r
  {
  }

  lemma DivMod100(n: int, q: int, r: int)
    requires n == 100 * q + r && 0 <= r < 100
    ensures n / 100 == q
  {
  }

  lemma DivMod1000(n: int, q: int, r: int)
    requires n == 1000 * q + r && 0 <= r < 1000
    ensures n / 1000 == q
  {
  }

  lemma ValueOf4RoundTrip(s: string)
    requires |s| == 4 && AllDigits(s)
    ensures FourDigits(ValueOf4(s)) == s
  {
    var n := ValueOf4(s);
    var d0, d1, d2, d3 := DigitValue(s[0]), DigitValue(s[1]), DigitValue(s[2]), DigitValue(s[3]);
    DivMod1000(n, d0, 100 * d1 + 10 * d2 + d3);
    DivMod100(n, 10 * d0 + d1, 10 * d2 + d3);
    DivMod10(10 * d0 + d1, d0, d1);
    DivMod10(n, 100 * d0 + 10 * d1 + d2, d3);
    DivMod10(100 * d0 + 10 * d1 + d2, 10 * d0 + d1, d2);
    var t := FourDigits(n);
    assert t[0] == s[0] && t[1] == s[1] && t[2] == s[2] && t[3] == s[3];
  }

  /** The value of a string of decimal digits, read left to right; "" reads as 0. */
  function DigitsValue(s: string): nat
    requires AllDigits(s)
  {
    if |s| == 0 then 0 else 10 * DigitsValue(s[..|s| - 1]) + DigitValue(s[|s| - 1])
  }

  /** `str(n)` for a natural number: its decimal digits, without leading zeros. */
  function DecimalString(n: nat): (s: string)
    ensures |s| >= 1 && AllDigits(s)
    ensures s[0] == '0' ==> n == 0
  {
    if n < 10 then [DigitChar(n)] else DecimalString(n / 10) + [DigitChar(n % 10)]
  }

  /** Reading back the digits of `str(n)` gives `n`. */
  lemma {:induction false} DecimalStringRoundTrip(n: nat)
    ensures DigitsValue(DecimalString(n)) == n
  {
    var s := DecimalString(n);
    if n >= 10 {
      DecimalStringRoundTrip(n / 10);
      assert s[..|s| - 1] == DecimalString(n / 10);
    }
  }

  /** `str(n)` for any integer: the digits of its magnitude, after a minus sign when negative. */
  function IntString(n: int): (s: string)
    ensures n >= 0 ==> AllDigits(s) && DigitsValue(s) == n
    ensures n < 0 ==> |s| >= 2 && s[0] == '-' && AllDigits(s[1..]) && DigitsValue(s[1..]) == -n
  {
    if n >= 0 then
      DecimalStringRoundTrip(n);
      DecimalString(n)
    else
      DecimalStringRoundTrip(-n);
      assert ("-" + DecimalString(-n))[1..] == DecimalString(-n);
      "-" + DecimalString(-n)
  }

  lemma DigitsValueOfFixed(s: string)
    requires AllDigits(s)
    ensures |s| == 4 ==> DigitsValue(s) == ValueOf4(s)
    ensures |s| == 2 ==> DigitsValue(s) == ValueOf2(s)
  {
    if |s| == 4 {
      assert s[..3][..2] == s[..2] && s[..2][..1] == s[..1] && s[..1][..0] == [];
    } else if |s| == 2 {
      assert s[..1][..0] == [];
      assert DigitsValue(s[..1]) == DigitValue(s[0]);
    }
  }

  lemma ValueOf2RoundTrip(s: string)
    requires |s| == 2 && AllDigits(s)
    ensures TwoDigits(ValueOf2(s)) == s
  {
    var t := TwoDigits(ValueOf2(s));
    assert t[0] == s[0] && t[1] == s[1];
  }

  // ---------------------------------------------------------------------
  // strptime / strftime with "%YM%m" and "%Y-%m"
  // ---------------------------------------------------------------------

  /** Shared shape of "%Y<sep>%m": four digits, the separator, two digits. */
  function ParseWithSeparator(s: string, sep: char): (r: Option<Month>)
    ensures r.Some? ==> InDateRange(r.value)
  {
    if |s| == 7 && AllDigits(s[..4]) && s[4] == sep && AllDigits(s[5..]) then
      var y := ValueOf4(s[..4]);
      var mo := ValueOf2(s[5..]);
      if 1 <= y && 1 <= mo <= 12 then Some(YearMonth(y, mo)) else None
    else
      None
  }

  function FormatWithSeparator(m: Month, sep: char): (s: string)
    requires InDateRange(m)
    ensures |s| == 7 && s[4] == sep
  {
    FourDigits(m.year) + [sep] + TwoDigits(m.month)
  }

  lemma {:induction false} ParseFormat(m: Month, sep: char)
    requires InDateRange(m)
    ensures ParseWithSeparator(FormatWithSeparator(m, sep), sep) == Some(m)
  {
    var s := FormatWithSeparator(m, sep);
    assert s[..4] == FourDigits(m.year) && s[5..] == TwoDigits(m.month);
    FourDigitsRoundTrip(m.year);
  }

  lemma {:induction false} FormatParse(s: string, sep: char)
    requires ParseWithSeparator(s, sep).Some?
    ensures FormatWithSeparator(ParseWithSeparator(s, sep).value, sep) == s
  {
    ValueOf4RoundTrip(s[..4]);
    ValueOf2RoundTrip(s[5..]);
    assert s == s[..4] + [s[4]] + s[5..];
  }

  /**
   * A month token's month: exactly four digits, 'M', two digits. This is
   * `datetime.strptime(s, "%YM%m")` on the strings the `^\d{4}M\d{2}$`
   * filters let through (StrptimeOnTokens); Strptime is the general parser.
   */
  function ParseCompact(s: string): (r: Option<Month>)
    ensures r.Some? ==> IsMonthToken(s) && InDateRange(r.value)
  {
    ParseWithSeparator(s, 'M')
  }

  /** `d.strftime("%YM%m")` */
  function FormatCompact(m: Month): (s: string)
    requires InDateRange(m)
    ensures IsMonthToken(s)
  {
    FormatWithSeparator(m, 'M')
  }

  /** strftime and strptime with "%YM%m" are inverse to each other. */
  lemma CompactRoundTrip(m: Month, s: string)
    requires InDateRange(m)
    ensures ParseCompact(FormatCompact(m)) == Some(m)
    ensures ParseCompact(s) == Some(m) ==> FormatCompact(m) == s
  {
    ParseFormat(m, 'M');
    if ParseCompact(s) == Some(m) {
      FormatParse(s, 'M');
    }
  }

  /** Two strings that strptime accepts name the same month only if they are equal. */
  lemma ParseCompactInjective(s: string, t: string)
    requires ParseCompact(s).Some? && ParseCompact(s) == ParseCompact(t)
    ensures s == t
  {
    FormatParse(s, 'M');
    FormatParse(t, 'M');
  }

  /** strptime's `%m` directive, `1[0-2]|0[1-9]|[1-9]`, which here must reach the end of the string. */
  function MonthField(t: string): (r: Option<int>)
    ensures r.Some? ==> 1 <= r.value <= 12
    ensures r.Some? ==> (|t| == 1 || |t| == 2) && AllDigits(t)
    ensures |t| == 1 ==> r == if IsDigit(t[0]) && t[0] != '0' then Some(DigitValue(t[0])) else None
    ensures |t| == 2 && AllDigits(t) ==> r == if 1 <= ValueOf2(t) <= 12 then Some(ValueOf2(t)) else None
  {
    if |t| == 1 && '1' <= t[0] <= '9' then Some(DigitValue(t[0]))
    else if |t| == 2 && t[0] == '1' && '0' <= t[1] <= '2' then Some(10 + DigitValue(t[1]))
    else if |t| == 2 && t[0] == '0' && '1' <= t[1] <= '9' then Some(DigitValue(t[1]))
    else None
  }

  /**
   * `datetime.strptime(s, "%Y" + sep + "%m")`, None where it raises
   * ValueError: exactly four digits for the year (year 0 is refused by
   * `datetime`), the separator matched ignoring ASCII case, then a one- or
   * two-digit month 1..12 that ends the string.
   */
  function Strptime(s: string, sep: char): (r: Option<Month>)
    ensures r.Some? ==> InDateRange(r.value)
  {
    if 6 <= |s| && AllDigits(s[..4]) && AsciiLower(s[4]) == AsciiLower(sep) && ValueOf4(s[..4]) >= 1 then
      match MonthField(s[5..])
      case Some(mo) => Some(YearMonth(ValueOf4(s[..4]), mo))
      case None => None
    else None
  }

  /** On month tokens (the strings `^\d{4}M\d{2}$` accepts) strptime and ParseCompact agree. */
  lemma StrptimeOnTokens(s: string)
    requires IsMonthToken(s)
    ensures Strptime(s, 'M') == ParseCompact(s)
  {
  }

  /** strptime reads back what strftime writes, for either separator. */
  lemma StrptimeFormat(m: Month, sep: char)
    requires InDateRange(m)
    ensures Strptime(FormatWithSeparator(m, sep), sep) == Some(m)
  {
    var s := FormatWithSeparator(m, sep);
    ParseFormat(m, sep);
    var t := s[5..];
    assert ValueOf2(t) == m.month;
  }

  /** strptime is looser than the month-token pattern: a one-digit month or a lower-case separator still parse. */
  lemma StrptimeLooserThanTokens()
    ensures Strptime("2024M1", 'M') == Some(YearMonth(2024, 1)) && ParseCompact("2024M1") == None
    ensures Strptime("2024m01", 'M') == Some(YearMonth(2024, 1)) && ParseCompact("2024m01") == None
  {
    assert "2024M1"[..4] == "2024" && "2024M1"[5..] == "1";
    assert "2024m01"[..4] == "2024" && "2024m01"[5..] == "01";
  }

  /** `f"{d.year:04d}-{d.month:02d}"` and `d.strftime("%Y-%m")` */
  function FormatDashed(m: Month): (s: string)
    requires InDateRange(m)
    ensures |s| == 7 && s[4] == '-'
  {
    FormatWithSeparator(m, '-')
  }

  // ---------------------------------------------------------------------
  // Day numbers (matplotlib's date2num: days since 1970-01-01)
  // ---------------------------------------------------------------------

  predicate IsLeapYear(y: int) {
    y % 4 == 0 && (y % 100 != 0 || y % 400 == 0)
  }

  function DaysIn(m: Month): (d: int)
    ensures 28 <= d <= 31
  {
    if m.month == 2 then (if IsLeapYear(m.year) then 29 else 28)
    else if m.month in {4, 6, 9, 11} then 30
    else 31
  }

  /** Days from 0001-01-01 to January 1st of `y` (proleptic Gregorian calendar). */
  function DaysBeforeYear(y: int): int {
    365 * (y - 1) + (y - 1) / 4 - (y - 1) / 100 + (y - 1) / 400
  }

  function DaysBeforeMonth(m: Month): int {
    var table := [0, 31, 59, 90, 120, 151, 181, 212, 243, 273, 304, 334];
    table[m.month - 1] + (if m.month > 2 && IsLeapYear(m.year) then 1 else 0)
  }

  /** Day number of the first day of `m`, counted from 1970-01-01. */
  function DayNumber(m: Month): int {
    DaysBeforeYear(m.year) + DaysBeforeMonth(m) - DaysBeforeYear(1970)
  }

  lemma YearLength(y: int)
    ensures DaysBeforeYear(y + 1) - DaysBeforeYear(y) == if IsLeapYear(y) then 366 else 365
  {
    StepOver4(y);
    StepOver100(y);
    StepOver400(y);
  }

  lemma StepOver4(y: int)
    ensures y / 4 - (y - 1) / 4 == if y % 4 == 0 then 1 else 0
  {
  }

  lemma StepOver100(y: int)
    ensures y / 100 - (y - 1) / 100 == if y % 100 == 0 then 1 else 0
  {
  }

  lemma StepOver400(y: int)
    ensures y / 400 - (y - 1) / 400 == if y % 400 == 0 then 1 else 0
  {
  }

  /** The first of the next month is exactly the month's length later. */
  lemma DayNumberStep(m: Month)
    ensures DayNumber(AddMonths(m, 1)) == DayNumber(m) + DaysIn(m)
  {
    var n := AddMonths(m, 1);
    IndexInjective(n, if m.month == 12 then YearMonth(m.year + 1, 1) else YearMonth(m.year, m.month + 1));
    if m.month == 12 {
      YearLength(m.year);
    }
  }

  /** Later months have larger day numbers: date2num is strictly increasing on month starts. */
  lemma {:induction false} DayNumberIncreasing(a: Month, b: Month)
    requires Index(a) < Index(b)
    ensures DayNumber(a) < DayNumber(b)
    decreases Index(b) - Index(a)
  {
    var a' := AddMonths(a, 1);
    DayNumberStep(a);
    if Index(a') < Index(b) {
      DayNumberIncreasing(a', b);
    } else {
      IndexInjective(a', b);
    }
  }

  // ---------------------------------------------------------------------
  // Sorting months
  // ---------------------------------------------------------------------

  predicate IsEarliest(m: Month, s: set<Month>) {
    m in s && forall x :: x in s ==> Index(m) <= Index(x)
  }

  lemma {:induction false} EarliestExists(s: set<Month>)
    requires s != {}
    ensures exists m :: IsEarliest(m, s)
    decreases |s|
  {
    var y :| y in s;
    if s == {y} {
      assert IsEarliest(y, s);
    } else {
      EarliestExists(s - {y});
      var m :| IsEarliest(m, s - {y});
      if Index(y) < Index(m) {
        assert IsEarliest(y, s);
      } else {
        assert IsEarliest(m, s);
      }
    }
  }

  lemma IndexInjectiveAll()
    ensures forall a: Month, b: Month :: Index(a) == Index(b) ==> a == b
  {
    forall a: Month, b: Month | Index(a) == Index(b)
      ensures a == b
    {
      IndexInjective(a, b);
    }
  }

  function Earliest(s: set<Month>): (m: Month)
    requires s != {}
    ensures IsEarliest(m, s)
  {
    EarliestExists(s);
    IndexInjectiveAll();
    var m :| IsEarliest(m, s);
    m
  }

  predicate Ascending(ms: seq<Month>) {
    forall i, j :: 0 <= i < j < |ms| ==> Index(ms[i]) < Index(ms[j])
  }

  /** The months of `s` in calendar order, each once. */
  function SortedMonths(s: set<Month>): (r: seq<Month>)
    ensures Ascending(r)
    ensures forall x :: x in r <==> x in s
    ensures |r| == |s|
    decreases |s|
  {
    if s == {} then []
    else
      var m := Earliest(s);
      var rest := SortedMonths(s - {m});
      assert forall x :: x in rest ==> Index(m) < Index(x) by {
        forall x | x in rest ensures Index(m) < Index(x) {
          if Index(m) == Index(x) { IndexInjective(m, x); }
        }
      }
      [m] + rest
  }
}
