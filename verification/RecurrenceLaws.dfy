/** What the enumeration guarantees over its whole output. */
module RecurrenceLaws {
  import opened Wrappers
  import opened Calendar
  import opened Recurrence
  import opened NextOccurrence

  /** Nothing fires before the start day. */
  lemma NothingBeforeStart(r: Rule, zone: Zone, lo: Day, hi: Day)
    requires lo <= hi + 1 && hi < StartOfDayIn(r.startDate, zone)
    ensures DaysWhere(Firing(r, zone), lo, hi) == []
  {
    hide StartOfDayIn, CivilOf, ResolveMonthDay;
    NoneAfter(Firing(r, zone), lo, lo - 1, hi);
  }

  lemma LaterIsNoEarlierDay(t1: Instant, t2: Instant, zone: Zone)
    requires t1 <= t2
    ensures StartOfDayIn(t1, zone) <= StartOfDayIn(t2, zone)
  {
  }

  /** Catching up at `t1` and then, from there, at `t2` is catching up once at `t2`. */
  lemma CatchUpInTwoSteps(r: Rule, t1: Instant, t2: Instant, zone: Zone)
    requires t1 <= t2
    ensures Missed(r, None, t2, zone) == Missed(r, None, t1, zone) + Missed(r, Some(t1), t2, zone)
  {
    var start, d1, d2 := StartOfDayIn(r.startDate, zone), StartOfDayIn(t1, zone), StartOfDayIn(t2, zone);
    LaterIsNoEarlierDay(t1, t2, zone);
    hide StartOfDayIn, FiresToday, Firing;
    if start <= d1 {
      DaysWhereSplit(Firing(r, zone), start, d1, d2);
    }
  }

  /** The same when only the last emitted day is remembered, as any instant of that day. */
  lemma CatchUpFromLastEmitted(r: Rule, t1: Instant, lastAdded: Instant, t2: Instant, zone: Zone)
    requires t1 <= t2
    requires Missed(r, None, t1, zone) != []
    requires StartOfDayIn(lastAdded, zone) == Missed(r, None, t1, zone)[|Missed(r, None, t1, zone)| - 1]
    ensures Missed(r, None, t2, zone) == Missed(r, None, t1, zone) + Missed(r, Some(lastAdded), t2, zone)
  {
    var p, start, d1, d2 := Firing(r, zone), StartOfDayIn(r.startDate, zone), StartOfDayIn(t1, zone),
        StartOfDayIn(t2, zone);
    LaterIsNoEarlierDay(t1, t2, zone);
    hide StartOfDayIn, FiresToday, Firing;
    var first := Missed(r, None, t1, zone);
    var last := first[|first| - 1];
    DaysWhereExact(p, start, d1);
    assert last in first;
    forall d | last < d <= d1 && start <= d
      ensures !p(d)
    {
      assert p(d) ==> d in first;
    }
    NoneAfter(p, start, last, d1);
    DaysWhereSplit(p, start, last, d2);
  }

  // ----- How far apart the fires are -----

  lemma NotBetweenNeighbours(s: seq<Day>, i: nat, d: Day)
    requires Increasing(s) && i + 1 < |s| && s[i] < d < s[i + 1]
    ensures d !in s
  {
    forall k | 0 <= k < |s|
      ensures s[k] != d
    {
      assert k <= i || i + 1 <= k;
    }
  }

  lemma NoGapBetween(p: Day -> bool, lo: Day, hi: Day, i: nat)
    requires i + 1 < |DaysWhere(p, lo, hi)|
    ensures var out := DaysWhere(p, lo, hi);
            && lo <= out[i] < out[i + 1] <= hi && p(out[i]) && p(out[i + 1])
            && forall d :: out[i] < d < out[i + 1] ==> !p(d)
  {
    var out := DaysWhere(p, lo, hi);
    DaysWhereExact(p, lo, hi);
    assert out[i] in out && out[i + 1] in out;
    forall d | out[i] < d < out[i + 1]
      ensures !p(d)
    {
      NotBetweenNeighbours(out, i, d);
    }
  }

  lemma NextMonthlyFire(targetDay: int, y: int, m: Month, y': int, m': Month)
    requires (y', m') == AdvanceMonth(y, m)
    ensures 28 <= ResolveMonthDay(y', m', targetDay) - ResolveMonthDay(y, m, targetDay) <= 31
    ensures forall d :: ResolveMonthDay(y, m, targetDay) < d < ResolveMonthDay(y', m', targetDay) ==>
        !MonthlyOn(targetDay)(d)
    ensures MonthlyOn(targetDay)(ResolveMonthDay(y', m', targetDay))
  {
    ResolveMonthDayClamps(y, m, targetDay);
    ResolveMonthDayClamps(y', m', targetDay);
    NextMonthStarts(y, m);
    OneFirePerMonth(y, m, targetDay);
    OneFirePerMonth(y', m', targetDay);
    hide ResolveMonthDay, CivilOf, FirstOfMonth, MonthlyOn;
  }

  /** Whatever the target day, monthly fires are 28 to 31 days apart. */
  lemma MonthlyGaps(targetDay: int, lo: Day, hi: Day)
    ensures var out := DaysWhere(MonthlyOn(targetDay), lo, hi);
            forall i :: 0 <= i && i + 1 < |out| ==> 28 <= out[i + 1] - out[i] <= 31
  {
    var p := MonthlyOn(targetDay);
    var out := DaysWhere(p, lo, hi);
    forall i | 0 <= i && i + 1 < |out|
      ensures 28 <= out[i + 1] - out[i] <= 31
    {
      NoGapBetween(p, lo, hi, i);
      var c := CivilOf(out[i]);
      assert ResolveMonthDay(c.year, c.month, targetDay) == out[i];
      var (y', m') := AdvanceMonth(c.year, c.month);
      hide ResolveMonthDay, CivilOf, MonthlyOn, DaysWhere;
      NextMonthlyFire(targetDay, c.year, c.month, y', m');
      assert out[i + 1] == ResolveMonthDay(y', m', targetDay);
    }
  }

  /** Every whole month in the range has one monthly fire, and it is emitted. */
  lemma OneFirePerWholeMonth(targetDay: int, lo: Day, hi: Day, y: int, m: Month)
    requires lo <= FirstOfMonth(y, m) && NextMonth(y, m) <= hi + 1
    ensures exists f :: f in DaysWhere(MonthlyOn(targetDay), lo, hi) && FirstOfMonth(y, m) <= f < NextMonth(y, m)
              && forall d :: d in DaysWhere(MonthlyOn(targetDay), lo, hi) ==>
                   FirstOfMonth(y, m) <= d < NextMonth(y, m) ==> d == f
  {
    hide ResolveMonthDay, CivilOf, FirstOfMonth, NextMonth, MonthlyOn, DaysWhere;
    OneFirePerMonth(y, m, targetDay);
    DaysWhereExact(MonthlyOn(targetDay), lo, hi);
    assert ResolveMonthDay(y, m, targetDay) in DaysWhere(MonthlyOn(targetDay), lo, hi);
  }

  /** Only a 29 February is clamped differently one year on. */
  lemma ClampAcrossYears(month: Month, day: int, y: int)
    ensures var moved := Clamp(day, DaysInMonth(y + 1, month)) - Clamp(day, DaysInMonth(y, month));
            if month == 2 && day > 28 then moved == DaysInYear(y + 1) - DaysInYear(y) else moved == 0
    ensures !(IsLeap(y) && IsLeap(y + 1))
  {
  }

  lemma YearlyGap(month: Month, day: int, y: int)
    ensures 365 <= ResolveMonthDay(y + 1, month, day) - ResolveMonthDay(y, month, day) <= 366
  {
    hide ResolveMonthDay, CivilOf, NextMonth, DaysBeforeMonth;
    assert FirstOfYear(y + 1) == FirstOfYear(y) + DaysInYear(y);
    hide FirstOfYear;
    ResolveMonthDayClamps(y, month, day);
    ResolveMonthDayClamps(y + 1, month, day);
    hide FirstOfMonth, DaysInMonth;
    MonthsShiftByLeap(y, y + 1, month);
    ClampAcrossYears(month, day, y);
  }

  lemma NextYearlyFire(month: Month, day: int, y: int)
    ensures 365 <= ResolveMonthDay(y + 1, month, day) - ResolveMonthDay(y, month, day) <= 366
    ensures forall d :: ResolveMonthDay(y, month, day) < d < ResolveMonthDay(y + 1, month, day) ==>
        !YearlyOn(month, day)(d)
    ensures YearlyOn(month, day)(ResolveMonthDay(y + 1, month, day))
  {
    hide ResolveMonthDay, CivilOf, YearlyOn, FirstOfYear;
    YearlyGap(month, day, y);
    OneFirePerYear(y, month, day);
    OneFirePerYear(y + 1, month, day);
  }

  /** Anniversaries, 29 February included, are 365 or 366 days apart. */
  lemma YearlyGaps(month: Month, day: int, lo: Day, hi: Day)
    ensures var out := DaysWhere(YearlyOn(month, day), lo, hi);
            forall i :: 0 <= i && i + 1 < |out| ==> 365 <= out[i + 1] - out[i] <= 366
  {
    var p := YearlyOn(month, day);
    var out := DaysWhere(p, lo, hi);
    forall i | 0 <= i && i + 1 < |out|
      ensures 365 <= out[i + 1] - out[i] <= 366
    {
      NoGapBetween(p, lo, hi, i);
      var y := CivilOf(out[i]).year;
      assert ResolveMonthDay(y, month, day) == out[i];
      hide ResolveMonthDay, CivilOf, YearlyOn, DaysWhere;
      NextYearlyFire(month, day, y);
      assert out[i + 1] == ResolveMonthDay(y + 1, month, day);
    }
  }

  // ----- The rules by the dates of their days -----

  predicate NotAfter(a: Date, b: Date) {
    || a.year < b.year
    || (a.year == b.year && a.month < b.month)
    || (a.year == b.year && a.month == b.month && a.day <= b.day)
  }

  lemma OrderedOneWay(a: Date, b: Date)
    requires ValidDate(a) && ValidDate(b) && NotAfter(a, b)
    ensures DayNumber(a) <= DayNumber(b)
  {
    DateInYear(a);
    DateInYear(b);
    if a.year < b.year {
      hide DayNumber, FirstOfYear;
      YearsIncrease(a.year, b.year);
    } else if a.month < b.month {
      hide DaysBeforeMonth, FirstOfYear, DaysInMonth;
      MonthsIncrease(a.year, a.month, b.month);
    }
  }

  /** Days follow each other as their dates do. */
  lemma DatesInOrder(a: Date, b: Date)
    requires ValidDate(a) && ValidDate(b)
    ensures DayNumber(a) <= DayNumber(b) <==> NotAfter(a, b)
  {
    hide DayNumber, DaysInMonth;
    if NotAfter(a, b) {
      OrderedOneWay(a, b);
    } else {
      OrderedOneWay(b, a);
      if DayNumber(a) == DayNumber(b) {
        CivilOfDayNumber(a);
        CivilOfDayNumber(b);
      }
    }
  }

  /** The date on the calendar of a zone. */
  function DateOf(t: Instant, zone: Zone): (date: Date)
    ensures ValidDate(date)
  {
    CivilOf(StartOfDayIn(t, zone))
  }

  /** That date by the clock: the days since 1 January 1970, by the day formula, are over and the next is
      not. */
  lemma DateByTheClock(t: Instant, zone: Zone, date: Date)
    requires ValidDate(date)
    ensures DateOf(t, zone) == date <==>
            var days := 365 * (date.year - 1) + LeapDays(date.year) - 719162
                        + (367 * date.month - 362) / 12
                        - (if date.month <= 2 then 0 else if IsLeap(date.year) then 1 else 2)
                        + date.day - 1;
            86400 * days <= t + zone < 86400 * (days + 1)
  {
    DayNumberFormula(date);
    hide DayNumber, CivilOf, LeapDays, DaysInMonth, IsLeap;
    CivilOfDayNumber(date);
    assert StartOfDayIn(t, zone) == DayNumber(date) <==>
           86400 * DayNumber(date) <= t + zone < 86400 * (DayNumber(date) + 1);
  }

  /** What a rule with a start on the date `start` asks of a date, in years, months, days and
      weekdays. */
  predicate AsksFor(r: Rule, start: Date, date: Date) {
    match r.frequency
    case Daily => true
    case Weekly =>
      if r.daysOfWeek == [] then WeekdayOf(date) == WeekdayOf(start) else WeekdayOf(date) in r.daysOfWeek
    case Monthly =>
      var target := if r.dayOfMonth.Some? then r.dayOfMonth.value else start.day;
      date.day == Clamp(target, DaysInMonth(date.year, date.month))
    case Yearly =>
      date.month == start.month && date.day == Clamp(start.day, DaysInMonth(date.year, date.month))
    case Unknown(_) => false
  }

  lemma WholeWeeksApart(d: Day, e: Day)
    ensures (d - e) % 7 == 0 <==> Weekday(d) == Weekday(e)
  {
    assert d - e == 7 * ((d + 4) / 7 - (e + 4) / 7) + Weekday(d) - Weekday(e);
  }

  lemma ResolvedDates(r: Rule, start: Date, d: Day)
    requires r.frequency.Monthly? || r.frequency.Yearly?
    ensures var date := CivilOf(d);
            if r.frequency.Monthly?
            then forall target :: ResolveMonthDay(date.year, date.month, target) == d <==>
                   date.day == Clamp(target, DaysInMonth(date.year, date.month))
            else ResolveMonthDay(date.year, start.month, start.day) == d <==>
                 date.month == start.month && date.day == Clamp(start.day, DaysInMonth(date.year, date.month))
  {
    hide CivilOf, ResolveMonthDay, DaysInMonth, DayNumber;
    var date := CivilOf(d);
    if r.frequency.Monthly? {
      forall target
        ensures ResolveMonthDay(date.year, date.month, target) == d <==>
                date.day == Clamp(target, DaysInMonth(date.year, date.month))
      {
        ResolveMonthDayClamps(date.year, date.month, target);
      }
    } else {
      ResolveMonthDayClamps(date.year, start.month, start.day);
    }
  }

  /** The point test says of a day what the rule asks of its date. */
  lemma FiresByDate(r: Rule, zone: Zone, d: Day)
    ensures FiresToday(r, zone, d) <==>
            var start, date := DateOf(r.startDate, zone), CivilOf(d);
            NotAfter(start, date) && AsksFor(r, start, date)
  {
    hide CivilOf, ResolveMonthDay, DaysInMonth, DayNumber, Weekday, WeekdayOf, StartOfDayIn;
    var startDay := StartOfDayIn(r.startDate, zone);
    var start, date := CivilOf(startDay), CivilOf(d);
    DatesInOrder(start, date);
    hide NotAfter;
    match r.frequency {
      case Weekly =>
        WeekdayIsZeller(date);
        WeekdayIsZeller(start);
        WholeWeeksApart(d, startDay);
      case Monthly => ResolvedDates(r, start, d);
      case Yearly => ResolvedDates(r, start, d);
      case _ =>
    }
  }

  /** The enumeration by date: the dates from the start date, and after the last one added, up to today
      that the rule asks for. */
  lemma MissedByDate(r: Rule, lastAdded: Option<Instant>, today: Instant, zone: Zone, date: Date)
    requires ValidDate(date)
    ensures DayNumber(date) in Missed(r, lastAdded, today, zone) <==>
            && NotAfter(DateOf(r.startDate, zone), date)
            && NotAfter(date, DateOf(today, zone))
            && (lastAdded.Some? ==> !NotAfter(date, DateOf(lastAdded.value, zone)))
            && AsksFor(r, DateOf(r.startDate, zone), date)
  {
    hide CivilOf, DayNumber, DaysInMonth, NotAfter, AsksFor, FiresToday, StartOfDayIn;
    var d, start := DayNumber(date), StartOfDayIn(r.startDate, zone);
    CivilOfDayNumber(date);
    FiresByDate(r, zone, d);
    DatesInOrder(CivilOf(start), date);
    DatesInOrder(date, CivilOf(StartOfDayIn(today, zone)));
    if lastAdded.Some? {
      DatesInOrder(date, CivilOf(StartOfDayIn(lastAdded.value, zone)));
    }
    DaysWhereExact(Firing(r, zone), ResumeDay(r, lastAdded, zone), StartOfDayIn(today, zone));
  }

  /** The horizon by date: the same day five years on, or 1 March after a 29 February. */
  lemma HorizonByDate(d: Day)
    ensures var c := CivilOf(d);
            CivilOf(Horizon(d)) ==
            if c.month == 2 && c.day == 29 then Date(c.year + 5, 3, 1) else Date(c.year + 5, c.month, c.day)
  {
    hide CivilOf, FirstOfYear;
    var c := CivilOf(d);
    var there := if c.month == 2 && c.day == 29 then Date(c.year + 5, 3, 1) else Date(c.year + 5, c.month, c.day);
    assert (c.month - 1) / 12 == 0 && (c.month - 1) % 12 == c.month - 1;
    assert ValidDate(there) && Horizon(d) == DayNumber(there);
    CivilOfDayNumber(there);
  }
}
