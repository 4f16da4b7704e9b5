/** Calendar dates and their day numbers. */
module Calendar {

  datatype Date = Date(year: int, month: int, day: int)

  predicate IsLeap(year: int) { year % 4 == 0 && (year % 100 != 0 || year % 400 == 0) }

  function DaysInMonth(year: int, month: int): int {
    if month == 2 then (if IsLeap(year) then 29 else 28)
    else if month in {4, 6, 9, 11} then 30 else 31
  }

  predicate IsDate(d: Date) { 1 <= d.month <= 12 && 1 <= d.day <= DaysInMonth(d.year, d.month) }

  predicate NotAfter(a: Date, b: Date) {
    a.year < b.year || (a.year == b.year && (a.month < b.month || (a.month == b.month && a.day <= b.day)))
  }

  function MonthEnd(year: int, month: int): Date { Date(year, month, DaysInMonth(year, month)) }

  /** Months on one line, so that consecutive months differ by one. */
  function MonthIndex(year: int, month: int): int { 12 * year + month }

  /** Days before a year in the proleptic calendar. */
  function DaysBeforeYear(year: int): int { 365 * year + (year - 1) / 4 - (year - 1) / 100 + (year - 1) / 400 }

  function DaysBeforeMonth(year: int, month: int): int {
    if month <= 1 then 0 else DaysBeforeMonth(year, month - 1) + DaysInMonth(year, month - 1)
  }

  function Ordinal(d: Date): int { DaysBeforeYear(d.year) + DaysBeforeMonth(d.year, d.month) + d.day }

  /** The day after a month's end is the first of the next month, also across years. */
  lemma {:induction false} OrdinalSteps(year: int, month: int)
    requires 1 <= month <= 12
    ensures
      var next := if month == 12 then Date(year + 1, 1, 1) else Date(year, month + 1, 1);
      Ordinal(next) == Ordinal(MonthEnd(year, month)) + 1
  {
    if month == 12 { YearLength(year); }
  }

  lemma {:induction false} YearLength(year: int)
    ensures DaysBeforeYear(year + 1) == DaysBeforeYear(year) + DaysBeforeMonth(year, 12) + DaysInMonth(year, 12)
  {
    hide DaysBeforeMonth, IsLeap;
    assert DaysBeforeYear(year + 1) == DaysBeforeYear(year) + if IsLeap(year) then 366 else 365 by { LeapDays(year); }
    assert DaysBeforeMonth(year, 12) == 334 + (if IsLeap(year) then 1 else 0) by { MonthsOfYear(year); }
  }

  lemma {:induction false} LeapDays(year: int)
    ensures DaysBeforeYear(year + 1) == DaysBeforeYear(year) + if IsLeap(year) then 366 else 365
  {
    Fourths(year);
    Hundredths(year);
    assert year / 400 == (year - 1) / 400 + if year % 400 == 0 then 1 else 0;
  }

  lemma {:induction false} Fourths(year: int)
    ensures year / 4 == (year - 1) / 4 + if year % 4 == 0 then 1 else 0
  {
  }

  lemma {:induction false} Hundredths(year: int)
    ensures year / 100 == (year - 1) / 100 + if year % 100 == 0 then 1 else 0
    ensures year % 100 == 0 ==> year % 4 == 0
    ensures year % 400 == 0 ==> year % 100 == 0
  {
    assert year % 100 == 0 ==> year == 4 * (25 * (year / 100));
    assert year % 400 == 0 ==> year == 100 * (4 * (year / 400));
  }

  lemma {:induction false} MonthsOfYear(year: int)
    ensures DaysBeforeMonth(year, 12) == 334 + if IsLeap(year) then 1 else 0
  {
    hide IsLeap;
    assert DaysBeforeMonth(year, 2) == 31;
    var march := 59 + if IsLeap(year) then 1 else 0;
    assert DaysBeforeMonth(year, 3) == march;
    assert DaysBeforeMonth(year, 5) == march + 61;
    assert DaysBeforeMonth(year, 7) == march + 122;
    assert DaysBeforeMonth(year, 9) == march + 184;
    assert DaysBeforeMonth(year, 11) == march + 245;
  }

  /** The next calendar day. */
  function NextDay(d: Date): Date {
    if d.day < DaysInMonth(d.year, d.month) then Date(d.year, d.month, d.day + 1)
    else if d.month == 12 then Date(d.year + 1, 1, 1)
    else Date(d.year, d.month + 1, 1)
  }

  /** `n` days later. */
  function DaysAfter(d: Date, n: nat): Date { if n == 0 then d else NextDay(DaysAfter(d, n - 1)) }

  /** The day number grows by one on every calendar day. */
  lemma {:induction false} OrdinalCounts(d: Date)
    requires IsDate(d)
    ensures IsDate(NextDay(d)) && Ordinal(NextDay(d)) == Ordinal(d) + 1
  {
    hide DaysBeforeYear, DaysBeforeMonth;
    if d.day == DaysInMonth(d.year, d.month) { OrdinalSteps(d.year, d.month); }
  }

  lemma {:induction false} OrdinalAfter(d: Date, n: nat)
    requires IsDate(d)
    ensures IsDate(DaysAfter(d, n)) && Ordinal(DaysAfter(d, n)) == Ordinal(d) + n
  {
    hide Ordinal, NextDay, IsDate;
    if n > 0 {
      OrdinalAfter(d, n - 1);
      OrdinalCounts(DaysAfter(d, n - 1));
    }
  }

  lemma {:induction false} MonthsGrow(year: int, m: int, n: int)
    requires 1 <= m < n <= 12
    ensures DaysBeforeMonth(year, m) + DaysInMonth(year, m) <= DaysBeforeMonth(year, n)
    decreases n
  {
    hide IsLeap;
    if m < n - 1 { MonthsGrow(year, m, n - 1); }
  }

  lemma {:induction false} YearsGrow(y: int, z: int)
    requires y < z
    ensures DaysBeforeYear(y + 1) <= DaysBeforeYear(z)
    decreases z - y
  {
    if y + 1 < z {
      YearsGrow(y, z - 1);
      LeapDays(z - 1);
      hide DaysBeforeYear;
    }
  }

  /** A date lies within its year's days. */
  lemma {:induction false} OrdinalInYear(d: Date)
    requires IsDate(d)
    ensures DaysBeforeYear(d.year) < Ordinal(d) <= DaysBeforeYear(d.year + 1)
  {
    hide DaysBeforeYear;
    if d.month < 12 { MonthsGrow(d.year, d.month, 12); }
    if d.month > 1 { MonthsGrow(d.year, 1, d.month); }
    YearLength(d.year);
  }

  /** Day numbers order dates as the calendar does. */
  lemma {:induction false} OrdinalOrders(a: Date, b: Date)
    requires IsDate(a) && IsDate(b)
    ensures NotAfter(a, b) <==> Ordinal(a) <= Ordinal(b)
  {
    if a != b && NotAfter(a, b) { OrdinalGrows(a, b); }
    if a != b && !NotAfter(a, b) { OrdinalGrows(b, a); }
  }

  lemma {:induction false} OrdinalGrows(a: Date, b: Date)
    requires IsDate(a) && IsDate(b) && a != b && NotAfter(a, b)
    ensures Ordinal(a) < Ordinal(b)
  {
    hide DaysBeforeYear, DaysBeforeMonth;
    if a.year < b.year {
      OrdinalInYear(a);
      OrdinalInYear(b);
      YearsGrow(a.year, b.year);
    } else if a.month < b.month {
      MonthsGrow(a.year, a.month, b.month);
    }
  }

  /** Counting the days between two dates leads from one to the other. */
  lemma {:induction false} DaysBetween(a: Date, b: Date)
    requires IsDate(a) && IsDate(b) && NotAfter(a, b)
    ensures Ordinal(a) <= Ordinal(b) && DaysAfter(a, Ordinal(b) - Ordinal(a)) == b
  {
    hide Ordinal, DaysAfter, IsDate;
    OrdinalOrders(a, b);
    var c := DaysAfter(a, Ordinal(b) - Ordinal(a));
    OrdinalAfter(a, Ordinal(b) - Ordinal(a));
    OrdinalOrders(b, c);
    OrdinalOrders(c, b);
  }

  function Earlier(a: Date, b: Date): Date { if NotAfter(a, b) then a else b }
}
