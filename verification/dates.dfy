/** Calendar arithmetic the tracker gets from JavaScript's `Date`: moving to an
    adjacent month (`new Date(y, m ± 1, 1)` normalises the month and rolls the
    year), Gregorian month lengths, chronological order of days, the English
    month names, and the `YYYY-MM-DD` string the calendar builds for a day
    (src/components/Calendar.jsx:61), which is also the form in which records
    carry their date. */
module Dates {
  import opened Types
  import opened Strings

  /** `new Date(y, m + 1, 1)`: the first day of the following month. */
  function NextMonth(d: Date): (r: Date)
    ensures r.day == 1
    ensures r.month == (d.month + 1) % 12
    ensures r.year == if d.month == 11 then d.year + 1 else d.year
  {
    if d.month == 11 then Date(d.year + 1, 0, 1) else Date(d.year, d.month + 1, 1)
  }

  /** `new Date(y, m - 1, 1)`: the first day of the preceding month. */
  function PrevMonth(d: Date): (r: Date)
    ensures r.day == 1
    ensures r.month == (d.month + 11) % 12
    ensures r.year == if d.month == 0 then d.year - 1 else d.year
  {
    if d.month == 0 then Date(d.year - 1, 11, 1) else Date(d.year, d.month - 1, 1)
  }

  /** The two moves undo each other (up to the day, which both set to 1), and
      the preceding month is never the current one. */
  lemma {:induction false} MonthMovesInverse(d: Date)
    ensures NextMonth(PrevMonth(d)) == Date(d.year, d.month, 1)
    ensures PrevMonth(NextMonth(d)) == Date(d.year, d.month, 1)
    ensures PrevMonth(d) != Date(d.year, d.month, 1)
  {
  }

  predicate IsLeapYear(y: int)
  {
    (y % 4 == 0 && y % 100 != 0) || y % 400 == 0
  }

  /** `new Date(year, month + 1, 0).getDate()`: day 0 of the next month is the
      last day of this one. */
  function DaysInMonth(year: int, month: Month0): (n: int)
    ensures 28 <= n <= 31
    ensures month == 1 ==> (n == 29 <==> IsLeapYear(year))
    ensures month != 1 ==> (n == 31 <==> month in {0, 2, 4, 6, 7, 9, 11})
    ensures month == 1 && !IsLeapYear(year) ==> n == 28
    ensures month in {3, 5, 8, 10} ==> n == 30
  {
    if month == 1 then (if IsLeapYear(year) then 29 else 28)
    else if month in {3, 5, 8, 10} then 30
    else 31
  }

  /** A triple that names a real calendar day. */
  predicate ValidDate(d: Date)
  {
    d.day <= DaysInMonth(d.year, d.month)
  }

  /** Chronological order on days: `a` is the same day as `b` or later. */
  predicate OnOrAfter(a: Date, b: Date)
  {
    a.year > b.year
    || (a.year == b.year && a.month > b.month)
    || (a.year == b.year && a.month == b.month && a.day >= b.day)
  }

  const LONG_MONTH_NAMES: seq<string> := [
    "January", "February", "March", "April", "May", "June", "July",
    "August", "September", "October", "November", "December"]

  const SHORT_MONTH_NAMES: seq<string> := [
    "Jan", "Feb", "Mar", "Apr", "May", "Jun", "Jul",
    "Aug", "Sep", "Oct", "Nov", "Dec"]

  /** `toLocaleString('default', { month: 'long' })` in an English locale. */
  function LongMonthName(m: Month0): string
  {
    LONG_MONTH_NAMES[m]
  }

  /** `toLocaleString('default', { month: 'short' })` in an English locale. */
  function ShortMonthName(m: Month0): string
  {
    SHORT_MONTH_NAMES[m]
  }

  /** In the English table the short name is the first three letters of the
      long one, which is what lets a name cut with `substring(0, 3)` match a
      name asked for in the short form. */
  lemma ShortNameIsFirstThree(m: Month0)
    ensures Take(LongMonthName(m), 3) == ShortMonthName(m)
    ensures |ShortMonthName(m)| == 3
  {
  }

  /** `${year}-${String(month + 1).padStart(2, '0')}-${String(day).padStart(2, '0')}`. */
  function DateStr(d: Date): string
  {
    IntToString(d.year) + "-" + PadStart2(NatToString(d.month + 1)) + "-" + PadStart2(NatToString(d.day))
  }

  /** A `y-mm-dd` shape with two-character fields splits back into its parts. */
  lemma SplitDateShape(y1: string, m1: string, d1: string, y2: string, m2: string, d2: string)
    requires |m1| == |d1| == |m2| == |d2| == 2
    requires y1 + "-" + m1 + "-" + d1 == y2 + "-" + m2 + "-" + d2
    ensures y1 == y2 && m1 == m2 && d1 == d2
  {
    var s1, s2 := y1 + "-" + m1 + "-" + d1, y2 + "-" + m2 + "-" + d2;
    assert |y1| == |s1| - 6 == |y2|;
    assert s1[..|y1|] == y1 && s2[..|y2|] == y2;
    assert s1[|y1| + 1..|y1| + 3] == m1 && s2[|y2| + 1..|y2| + 3] == m2;
    assert s1[|y1| + 4..] == d1 && s2[|y2| + 4..] == d2;
  }

  /** The string names the day: two different days never print alike, so
      comparing strings is comparing days. */
  lemma DateStrInjective(a: Date, b: Date)
    requires DateStr(a) == DateStr(b)
    ensures a == b
  {
    Pad2Length(a.month + 1);
    Pad2Length(b.month + 1);
    Pad2Length(a.day);
    Pad2Length(b.day);
    SplitDateShape(IntToString(a.year), PadStart2(NatToString(a.month + 1)), PadStart2(NatToString(a.day)),
                   IntToString(b.year), PadStart2(NatToString(b.month + 1)), PadStart2(NatToString(b.day)));
    IntToStringInjective(a.year, b.year);
    Pad2Injective(a.month + 1, b.month + 1);
    Pad2Injective(a.day, b.day);
  }
}
