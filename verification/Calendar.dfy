/** Proleptic Gregorian dates of years 1 to 9999, their order, and the next day. */
module Calendar {
  import opened Basics

  datatype Date = Date(year: int, month: int, day: int)

  const MAX_YEAR: int := 9999
  const LAST_DAY: Date := Date(MAX_YEAR, 12, 31)

  predicate IsLeap(year: int) { year % 4 == 0 && (year % 100 != 0 || year % 400 == 0) }

  function DaysInMonth(year: int, month: int): (n: int)
    ensures 28 <= n <= 31
  {
    if month == 2 then (if IsLeap(year) then 29 else 28)
    else if month in {4, 6, 9, 11} then 30
    else 31
  }

  predicate Valid(d: Date) {
    1 <= d.year <= MAX_YEAR && 1 <= d.month <= 12 && 1 <= d.day <= DaysInMonth(d.year, d.month)
  }

  predicate Before(a: Date, b: Date) {
    || a.year < b.year
    || (a.year == b.year && a.month < b.month)
    || (a.year == b.year && a.month == b.month && a.day < b.day)
  }

  predicate NotAfter(a: Date, b: Date) { a == b || Before(a, b) }

  /** The next day, or nothing past the last representable date. */
  function NextDay(d: Date): Option<Date> {
    if d.day < DaysInMonth(d.year, d.month) then Some(d.(day := d.day + 1))
    else if d.month < 12 then Some(Date(d.year, d.month + 1, 1))
    else if d.year < MAX_YEAR then Some(Date(d.year + 1, 1, 1))
    else None
  }

  // ---- Day numbers, counting from 0001-01-01 as day 1 ----

  function DaysBeforeYear(year: int): int {
    var y := year - 1;
    365 * y + y / 4 - y / 100 + y / 400
  }

  function DaysBeforeMonth(year: int, month: nat): nat {
    if month <= 1 then 0 else DaysBeforeMonth(year, month - 1) + DaysInMonth(year, month - 1)
  }

  ghost function Ordinal(d: Date): int
    requires Valid(d)
  {
    DaysBeforeYear(d.year) + DaysBeforeMonth(d.year, d.month) + d.day
  }

  /**
   The day number by the closed formula for years that begin in March, where the
   month lengths repeat every five months. It defines the calendar on its own.
   */
  function MarchOrdinal(year: int, month: int, day: int): int {
    var y := if month <= 2 then year - 1 else year;
    var m := if month <= 2 then month + 9 else month - 3;
    365 * y + y / 4 - y / 100 + y / 400 + (153 * m + 2) / 5 + day - 306
  }

  lemma OrdinalByFormula(d: Date)
    requires Valid(d)
    ensures Ordinal(d) == MarchOrdinal(d.year, d.month, d.day)
  {
    MonthStarts(d.year);
    LeapDays(d.year);
  }

  lemma MonthStarts(year: int)
    ensures forall m :: 1 <= m <= 12 ==>
              DaysBeforeMonth(year, m) == (367 * m - 362) / 12 - (if m <= 2 then 0 else if IsLeap(year) then 1 else 2)
  {
    Quarter(year, 1);
    Quarter(year, 4);
    Quarter(year, 7);
    forall m | 1 <= m <= 12
      ensures DaysBeforeMonth(year, m) == (367 * m - 362) / 12 - (if m <= 2 then 0 else if IsLeap(year) then 1 else 2)
    {
      if m == 2 || m == 5 || m == 8 || m == 11 {
        assert DaysBeforeMonth(year, m) == DaysBeforeMonth(year, m - 1) + DaysInMonth(year, m - 1);
      }
      if m == 3 || m == 6 || m == 9 || m == 12 {
        assert DaysBeforeMonth(year, m - 1) == DaysBeforeMonth(year, m - 2) + DaysInMonth(year, m - 2);
      }
    }
  }

  /** Every month is as long as the formula says: the last day of a month comes right before the first of the next. */
  lemma MonthLengths(year: int, month: int)
    requires 1 <= month <= 12
    ensures DaysInMonth(year, month)
         == if month == 12 then 31 else MarchOrdinal(year, month + 1, 1) - MarchOrdinal(year, month, 1)
  {
    LeapDays(year);
  }

  lemma YearLength(year: int)
    ensures DaysBeforeYear(year + 1) == DaysBeforeYear(year) + DaysBeforeMonth(year, 13)
  {
    LeapDays(year);
    Quarter(year, 1);
    Quarter(year, 4);
    Quarter(year, 7);
    Quarter(year, 10);
  }

  lemma Quarter(year: int, m: nat)
    requires m >= 1
    ensures DaysBeforeMonth(year, m + 3)
         == DaysBeforeMonth(year, m) + DaysInMonth(year, m) + DaysInMonth(year, m + 1) + DaysInMonth(year, m + 2)
  {
    assert DaysBeforeMonth(year, m + 2) == DaysBeforeMonth(year, m + 1) + DaysInMonth(year, m + 1);
  }

  lemma LeapDays(year: int)
    ensures var y := year - 1;
            year / 4 - year / 100 + year / 400 == y / 4 - y / 100 + y / 400 + (if IsLeap(year) then 1 else 0)
  {
    Quotient(year, 4);
    Quotient(year, 100);
    Quotient(year, 400);
  }

  lemma Quotient(n: int, k: int)
    requires k == 4 || k == 100 || k == 400
    ensures n / k == (n - 1) / k + (if n % k == 0 then 1 else 0)
  {
  }

  lemma {:induction false} MonthsGrow(year: int, m: nat, n: nat)
    requires 1 <= m < n
    ensures DaysBeforeMonth(year, m) + DaysInMonth(year, m) <= DaysBeforeMonth(year, n)
    decreases n
  {
    if m + 1 < n { MonthsGrow(year, m, n - 1); }
  }

  lemma {:induction false} YearsGrow(a: int, b: int)
    requires a < b
    ensures DaysBeforeYear(a) + DaysBeforeMonth(a, 13) <= DaysBeforeYear(b)
    decreases b - a
  {
    YearLength(b - 1);
    if a + 1 < b { YearsGrow(a, b - 1); } else { assert a == b - 1; }
  }

  lemma EarlierIsSmaller(a: Date, b: Date)
    requires Valid(a) && Valid(b) && Before(a, b)
    ensures Ordinal(a) < Ordinal(b)
  {
    if a.year < b.year {
      YearsGrow(a.year, b.year);
      MonthsGrow(a.year, a.month, 13);
    } else if a.month < b.month {
      MonthsGrow(a.year, a.month, b.month);
    }
  }

  /** The order on fields is the order of day numbers, so equal numbers mean equal dates. */
  lemma OrdinalIsTheOrder(a: Date, b: Date)
    requires Valid(a) && Valid(b)
    ensures Before(a, b) <==> Ordinal(a) < Ordinal(b)
    ensures a == b <==> Ordinal(a) == Ordinal(b)
  {
    if Before(a, b) { EarlierIsSmaller(a, b); }
    if Before(b, a) { EarlierIsSmaller(b, a); }
  }

  /** Adding one to the day number is the field-wise next day, for every date but the last. */
  lemma NextDayAddsOne(d: Date)
    requires Valid(d)
    ensures NextDay(d).None? <==> d == LAST_DAY
    ensures NextDay(d).Some? ==> Valid(NextDay(d).value) && Ordinal(NextDay(d).value) == Ordinal(d) + 1
  {
    if d.day == DaysInMonth(d.year, d.month) && d.month == 12 && d.year < MAX_YEAR {
      YearLength(d.year);
    }
  }

  /** The next day is the earliest later date. */
  lemma NextDayIsLeast(d: Date, later: Date)
    requires Valid(d) && Valid(later) && Before(d, later)
    ensures NextDay(d).Some? && Before(d, NextDay(d).value) && NotAfter(NextDay(d).value, later)
  {
    NextDayAddsOne(d);
    OrdinalIsTheOrder(d, later);
    OrdinalIsTheOrder(LAST_DAY, later);
    var n := NextDay(d).value;
    OrdinalIsTheOrder(d, n);
    OrdinalIsTheOrder(n, later);
  }
}
