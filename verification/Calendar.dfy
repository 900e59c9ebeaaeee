/** The proleptic Gregorian calendar as Go's `time.Date` and `Time.Date` see it.

    A `Day` counts midnights from 1 January 1970 in one zone of fixed offset, so the
    difference of two days is the `Hours()/24` of the source. */
module Calendar {

  type Day = int

  type Month = m: int | 1 <= m <= 12 witness 1

  datatype Date = Date(year: int, month: Month, day: int)

  predicate IsLeap(y: int) {
    y % 4 == 0 && (y % 100 != 0 || y % 400 == 0)
  }

  function DaysInMonth(y: int, m: Month): (n: int)
    ensures 28 <= n <= 31
  {
    if m == 2 then (if IsLeap(y) then 29 else 28)
    else if m in {4, 6, 9, 11} then 30
    else 31
  }

  function DaysInYear(y: int): int {
    if IsLeap(y) then 366 else 365
  }

  /** 1 January, counted year by year from 1970. */
  function FirstOfYear(y: int): Day
    decreases if y < 1970 then 1970 - y else y - 1970
  {
    if y == 1970 then 0
    else if y > 1970 then FirstOfYear(y - 1) + DaysInYear(y - 1)
    else FirstOfYear(y + 1) - DaysInYear(y)
  }

  function DaysBeforeMonth(y: int, m: Month): int {
    if m == 1 then 0 else DaysBeforeMonth(y, m - 1) + DaysInMonth(y, m - 1)
  }

  function FirstOfMonth(y: int, m: Month): Day {
    FirstOfYear(y) + DaysBeforeMonth(y, m)
  }

  function DayNumber(date: Date): Day {
    FirstOfMonth(date.year, date.month) + date.day - 1
  }

  predicate ValidDate(date: Date) {
    1 <= date.day <= DaysInMonth(date.year, date.month)
  }

  // ----- Year and month boundaries -----

  lemma {:induction false} YearsIncrease(y: int, z: int)
    requires y < z
    ensures FirstOfYear(y + 1) <= FirstOfYear(z)
    decreases z - y
  {
    if y + 1 < z {
      YearsIncrease(y, z - 1);
      assert FirstOfYear(z) == FirstOfYear(z - 1) + DaysInYear(z - 1);
    }
  }

  lemma MonthsFillYear(y: int)
    ensures DaysBeforeMonth(y, 12) + DaysInMonth(y, 12) == DaysInYear(y)
  {
    assert DaysBeforeMonth(y, 2) == 31;
    assert DaysBeforeMonth(y, 4) == DaysBeforeMonth(y, 2) + DaysInMonth(y, 2) + 31;
    assert DaysBeforeMonth(y, 6) == DaysBeforeMonth(y, 4) + 61;
    assert DaysBeforeMonth(y, 8) == DaysBeforeMonth(y, 6) + 61;
    assert DaysBeforeMonth(y, 10) == DaysBeforeMonth(y, 8) + 61;
    assert DaysBeforeMonth(y, 12) == DaysBeforeMonth(y, 10) + 61;
  }

  lemma {:induction false} MonthsIncrease(y: int, m: Month, n: Month)
    requires m < n
    ensures DaysBeforeMonth(y, m) + DaysInMonth(y, m) <= DaysBeforeMonth(y, n)
    decreases n - m
  {
    if m + 1 < n {
      MonthsIncrease(y, m, n - 1);
    }
  }

  lemma {:induction false} MonthStartsInYear(y: int, m: Month)
    ensures 0 <= DaysBeforeMonth(y, m)
    ensures DaysBeforeMonth(y, m) + DaysInMonth(y, m) <= DaysInYear(y)
  {
    MonthsFillYear(y);
    if m > 1 {
      MonthsIncrease(y, 1, m);
    }
    if m < 12 {
      MonthsIncrease(y, m, 12);
    }
  }

  /** From March on, a month starts later in a longer year. */
  lemma {:induction false} MonthsShiftByLeap(y: int, z: int, m: Month)
    ensures DaysBeforeMonth(z, m) - DaysBeforeMonth(y, m) ==
            if m <= 2 then 0 else DaysInYear(z) - DaysInYear(y)
    decreases m
  {
    if m > 1 {
      MonthsShiftByLeap(y, z, m - 1);
    }
  }

  // ----- From day numbers back to dates -----

  function YearUpFrom(y: int, d: Day): (z: int)
    requires 1970 <= y && FirstOfYear(y) <= d
    ensures FirstOfYear(z) <= d < FirstOfYear(z + 1)
    decreases d - FirstOfYear(y)
  {
    if d < FirstOfYear(y + 1) then y else YearUpFrom(y + 1, d)
  }

  function YearDownFrom(y: int, d: Day): (z: int)
    requires y < 1970 && d < FirstOfYear(y + 1)
    ensures FirstOfYear(z) <= d < FirstOfYear(z + 1)
    decreases FirstOfYear(y + 1) - d
  {
    if FirstOfYear(y) <= d then y else YearDownFrom(y - 1, d)
  }

  function YearOf(d: Day): (y: int)
    ensures FirstOfYear(y) <= d < FirstOfYear(y + 1)
  {
    if 0 <= d then YearUpFrom(1970, d) else YearDownFrom(1969, d)
  }

  function MonthFrom(y: int, m: Month, n: int): (k: Month)
    requires DaysBeforeMonth(y, m) <= n < DaysInYear(y)
    ensures DaysBeforeMonth(y, k) <= n < DaysBeforeMonth(y, k) + DaysInMonth(y, k)
    decreases 12 - m
  {
    MonthsFillYear(y);
    if n < DaysBeforeMonth(y, m) + DaysInMonth(y, m) then m else MonthFrom(y, m + 1, n)
  }

  /** `Time.Date()`. */
  function CivilOf(d: Day): (date: Date)
    ensures ValidDate(date) && DayNumber(date) == d
  {
    var y := YearOf(d);
    var n := d - FirstOfYear(y);
    var m := MonthFrom(y, 1, n);
    Date(y, m, n - DaysBeforeMonth(y, m) + 1)
  }

  lemma YearIsUnique(d: Day, y: int, z: int)
    requires FirstOfYear(y) <= d < FirstOfYear(y + 1) && FirstOfYear(z) <= d < FirstOfYear(z + 1)
    ensures y == z
  {
    hide FirstOfYear;
    if y < z {
      YearsIncrease(y, z);
    } else if z < y {
      YearsIncrease(z, y);
    }
  }

  lemma MonthIsUnique(y: int, m: Month, k: Month, n: int)
    requires DaysBeforeMonth(y, m) <= n < DaysBeforeMonth(y, m) + DaysInMonth(y, m)
    requires DaysBeforeMonth(y, k) <= n < DaysBeforeMonth(y, k) + DaysInMonth(y, k)
    ensures m == k
  {
    hide DaysBeforeMonth, DaysInMonth;
    if m < k {
      MonthsIncrease(y, m, k);
    } else if k < m {
      MonthsIncrease(y, k, m);
    }
  }

  lemma DateInYear(date: Date)
    requires ValidDate(date)
    ensures FirstOfYear(date.year) <= DayNumber(date) < FirstOfYear(date.year + 1)
  {
    MonthStartsInYear(date.year, date.month);
    assert FirstOfYear(date.year + 1) == FirstOfYear(date.year) + DaysInYear(date.year);
    hide FirstOfYear, DaysBeforeMonth, DaysInMonth, DaysInYear;
  }

  /** A day has one date: with the ensures of CivilOf, dates and day numbers are in bijection. */
  lemma CivilOfDayNumber(date: Date)
    requires ValidDate(date)
    ensures CivilOf(DayNumber(date)) == date
  {
    hide CivilOf, FirstOfYear, DaysBeforeMonth, DaysInMonth;
    var d := DayNumber(date);
    var other := CivilOf(d);
    DateInYear(date);
    DateInYear(other);
    YearIsUnique(d, date.year, other.year);
    MonthIsUnique(date.year, date.month, other.month, d - FirstOfYear(date.year));
  }

  // ----- Normalising dates, and the clamped day of a month -----

  /** `time.Date(y, m, d, 0, 0, 0, 0, loc)`: months outside 1..12 carry into the year, days
      outside the month run into the neighbouring months. */
  function GoDate(y: int, m: int, d: int): Day {
    FirstOfMonth(y + (m - 1) / 12, (m - 1) % 12 + 1) + d - 1
  }

  function AdvanceMonth(y: int, m: Month): (int, Month) {
    if m + 1 > 12 then (y + 1, 1) else (y, m + 1)
  }

  function NextMonth(y: int, m: Month): Day {
    var (y', m') := AdvanceMonth(y, m);
    FirstOfMonth(y', m')
  }

  lemma NextMonthStarts(y: int, m: Month)
    ensures NextMonth(y, m) == FirstOfMonth(y, m) + DaysInMonth(y, m)
    ensures GoDate(y, m + 1, 1) == NextMonth(y, m)
  {
    if m == 12 {
      MonthsFillYear(y);
      assert m / 12 == 1 && m % 12 == 0;
    } else {
      assert m / 12 == 0 && m % 12 == m;
    }
  }

  /** Midnight of day `day` of the month, clamped to its first and last day. */
  function ResolveMonthDay(y: int, m: Month, day: int): Day {
    var lastDay := CivilOf(GoDate(y, m + 1, 0)).day;
    var atLeast := if day < 1 then 1 else day;
    GoDate(y, m, if atLeast > lastDay then lastDay else atLeast)
  }

  function Clamp(day: int, last: int): int {
    if day < 1 then 1 else if day > last then last else day
  }

  /** Day 0 of the next month normalises to the last day of this one. */
  lemma LastDayOfMonth(y: int, m: Month)
    ensures CivilOf(GoDate(y, m + 1, 0)) == Date(y, m, DaysInMonth(y, m))
  {
    NextMonthStarts(y, m);
    hide CivilOf;
    var last := Date(y, m, DaysInMonth(y, m));
    assert GoDate(y, m + 1, 0) == DayNumber(last);
    CivilOfDayNumber(last);
  }

  lemma ResolveMonthDayClamps(y: int, m: Month, day: int)
    ensures ResolveMonthDay(y, m, day) == DayNumber(Date(y, m, Clamp(day, DaysInMonth(y, m))))
    ensures CivilOf(ResolveMonthDay(y, m, day)) == Date(y, m, Clamp(day, DaysInMonth(y, m)))
    ensures FirstOfMonth(y, m) <= ResolveMonthDay(y, m, day) < NextMonth(y, m)
  {
    NextMonthStarts(y, m);
    LastDayOfMonth(y, m);
    hide CivilOf, NextMonth;
    assert (m - 1) / 12 == 0 && (m - 1) % 12 == m - 1;
    CivilOfDayNumber(Date(y, m, Clamp(day, DaysInMonth(y, m))));
  }

  lemma InMonth(d: Day, y: int, m: Month)
    requires FirstOfMonth(y, m) <= d < NextMonth(y, m)
    ensures CivilOf(d) == Date(y, m, d - FirstOfMonth(y, m) + 1)
  {
    NextMonthStarts(y, m);
    hide CivilOf, NextMonth, FirstOfMonth, DaysInMonth;
    CivilOfDayNumber(Date(y, m, d - FirstOfMonth(y, m) + 1));
  }

  /** `Time.Weekday()`: 0 is Sunday; 1 January 1970 was a Thursday. */
  function Weekday(d: Day): (w: int)
    ensures 0 <= w <= 6
  {
    (d + 4) % 7
  }

  // ----- Closed formulas -----

  /** The number of leap days before year `y`, counted from year 1. */
  function LeapDays(y: int): int {
    (y - 1) / 4 - (y - 1) / 100 + (y - 1) / 400
  }

  lemma LeapDaysStep(y: int)
    ensures LeapDays(y + 1) == LeapDays(y) + if IsLeap(y) then 1 else 0
  {
    MultiplesOf4(y);
    MultiplesOf100(y);
    MultiplesOf400(y);
  }

  lemma MultiplesOf4(y: int)
    ensures y / 4 == (y - 1) / 4 + if y % 4 == 0 then 1 else 0
  {
    assert y - 1 == if y % 4 == 0 then 4 * (y / 4 - 1) + 3 else 4 * (y / 4) + (y % 4 - 1);
  }

  lemma MultiplesOf100(y: int)
    ensures y / 100 == (y - 1) / 100 + if y % 100 == 0 then 1 else 0
    ensures y % 100 == 0 ==> y % 4 == 0
  {
    assert y - 1 == if y % 100 == 0 then 100 * (y / 100 - 1) + 99 else 100 * (y / 100) + (y % 100 - 1);
    assert y % 100 == 0 ==> y == 4 * (25 * (y / 100));
  }

  lemma MultiplesOf400(y: int)
    ensures y / 400 == (y - 1) / 400 + if y % 400 == 0 then 1 else 0
    ensures y % 400 == 0 ==> y % 100 == 0
  {
    assert y - 1 == if y % 400 == 0 then 400 * (y / 400 - 1) + 399 else 400 * (y / 400) + (y % 400 - 1);
    assert y % 400 == 0 ==> y == 100 * (4 * (y / 400));
  }

  /** 719162 days lie between 1 January of year 1 and 1 January 1970. */
  lemma {:induction false} FirstOfYearFormula(y: int)
    ensures FirstOfYear(y) == 365 * (y - 1) + LeapDays(y) - 719162
    decreases if y < 1970 then 1970 - y else y - 1970
  {
    if y > 1970 {
      FirstOfYearFormula(y - 1);
      LeapDaysStep(y - 1);
    } else if y < 1970 {
      FirstOfYearFormula(y + 1);
      LeapDaysStep(y);
    }
  }

  /** Before a month lie (367 m - 362) / 12 days if February had 30. */
  lemma {:induction false} DaysBeforeMonthFormula(y: int, m: Month)
    ensures DaysBeforeMonth(y, m) == (367 * m - 362) / 12 - if m <= 2 then 0 else if IsLeap(y) then 1 else 2
    decreases m
  {
    if m > 1 {
      DaysBeforeMonthFormula(y, m - 1);
      hide IsLeap;
      assert m in {2, 3, 4, 5, 6, 7, 8, 9, 10, 11, 12};
    }
  }

  /** 365 days a year and one every leap year, and the days of the months. */
  lemma DayNumberFormula(date: Date)
    ensures DayNumber(date) ==
            365 * (date.year - 1) + LeapDays(date.year) - 719162
            + (367 * date.month - 362) / 12
            - (if date.month <= 2 then 0 else if IsLeap(date.year) then 1 else 2)
            + date.day - 1
  {
    FirstOfYearFormula(date.year);
    DaysBeforeMonthFormula(date.year, date.month);
    hide FirstOfYear, DaysBeforeMonth, LeapDays, IsLeap;
  }

  /** Zeller's congruence, 0 for Saturday: January and February count as months 13 and 14 of the year
      before. */
  function Zeller(date: Date): int {
    var y := if date.month <= 2 then date.year - 1 else date.year;
    var m := if date.month <= 2 then date.month + 12 else date.month;
    var century, k := y / 100, y % 100;
    (date.day + 13 * (m + 1) / 5 + k + k / 4 + century / 4 - 2 * century) % 7
  }

  /** The weekday of a date by that congruence, 0 for Sunday. */
  function WeekdayOf(date: Date): int {
    (Zeller(date) + 6) % 7
  }

  /** Adding whole weeks changes no weekday. */
  lemma WholeWeeks(a: int, b: int, weeks: int)
    requires a == b + 7 * weeks
    ensures a % 7 == b % 7
  {
  }

  /** What the century and the year in it contribute is, up to 18 weeks a century, the year and its
      leap days. */
  lemma CenturyTerms(y: int)
    ensures y % 100 + y % 100 / 4 + y / 100 / 4 - 2 * (y / 100) == y + LeapDays(y + 1) - 7 * (18 * (y / 100))
  {
    var century, k := y / 100, y % 100;
    assert y == 100 * century + k;
    assert y / 4 == 25 * century + k / 4;
    assert y / 400 == century / 4;
  }

  function MonthTerm(m: Month): int {
    13 * ((if m <= 2 then m + 12 else m) + 1) / 5
  }

  /** The month terms of the day formula and of the congruence differ by whole weeks and a day, and by
      two days from March on. */
  lemma MonthTerms(m: Month)
    ensures (367 * m - 362) / 12 == MonthTerm(m) + if m <= 2 then 7 * (4 * m - 9) - 1 else 7 * (4 * m - 5) + 2
  {
    assert m in {1, 2, 3, 4, 5, 6, 7, 8, 9, 10, 11, 12};
  }

  /** The weekday of a day is what the congruence says of its date, in every year. */
  lemma WeekdayIsZeller(date: Date)
    ensures Weekday(DayNumber(date)) == WeekdayOf(date)
  {
    var early := date.month <= 2;
    var y := if early then date.year - 1 else date.year;
    DayNumberFormula(date);
    LeapDaysStep(date.year);
    MonthTerms(date.month);
    CenturyTerms(y);
    hide DayNumber, LeapDays, MonthTerm, IsLeap;
    var m, century := (if early then 4 * date.month - 9 else 4 * date.month - 5), y / 100;
    var sum := date.day + MonthTerm(date.month) + y % 100 + y % 100 / 4 + century / 4 - 2 * century;
    WholeWeeks(sum + 6, sum % 7 + 6, sum / 7);
    assert Zeller(date) == sum % 7;
    WholeWeeks(DayNumber(date) + 4, sum + 6, 52 * y + m + 18 * century - if early then 102738 else 102790);
  }
}
