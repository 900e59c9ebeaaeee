/** The latest occurrence due and the next one to come. */
module NextOccurrence {
  import opened Wrappers
  import opened Calendar
  import opened Recurrence

  /** Runs the full enumeration in UTC and keeps its last element. */
  method NextOccurrence(r: Rule, today: Instant) returns (last: Option<Day>)
    ensures last.Some? ==> FiresToday(r, UTC, last.value) && last.value <= StartOfDayIn(today, UTC)
    ensures forall d :: FiresToday(r, UTC, d) && d <= StartOfDayIn(today, UTC) ==> last.Some? && d <= last.value
  {
    hide FiresToday;
    var dates := AllMissedOccurrences(r, None, today, UTC);
    if |dates| == 0 {
      return None;
    }
    last := Some(dates[|dates| - 1]);
  }

  // ----- The bounded search -----

  ghost predicate NoneIn(p: Day -> bool, lo: Day, hi: Day) {
    forall d :: lo <= d < hi ==> !p(d)
  }

  ghost predicate FirstFrom(p: Day -> bool, cursor: Day, fire: Day) {
    cursor <= fire && p(fire) && NoneIn(p, cursor, fire)
  }

  /** Five years after `d`, as `AddDate(5, 0, 0)`: 29 February runs into 1 March. */
  function Horizon(d: Day): Day {
    var c := CivilOf(d);
    GoDate(c.year + 5, c.month, c.day)
  }

  /** When the search answers nil. */
  predicate GivesUp(r: Rule, after: Instant, zone: Zone) {
    || StartOfDayIn(r.startDate, zone) > Horizon(StartOfDayIn(after, zone))
    || r.frequency.Unknown?
    || (r.frequency.Weekly? && |r.daysOfWeek| > 0 && forall w :: 0 <= w <= 6 ==> w !in r.daysOfWeek)
  }

  lemma HorizonIsFar(d: Day)
    ensures d + 1824 <= Horizon(d)
  {
    var c := CivilOf(d);
    hide CivilOf;
    DateInFiveYears(c);
  }

  lemma DateInFiveYears(c: Date)
    ensures DayNumber(c) + 1824 <= GoDate(c.year + 5, c.month, c.day)
  {
    hide DaysBeforeMonth, FirstOfYear;
    MonthsShiftByLeap(c.year, c.year + 5, c.month);
    assert (c.month - 1) / 12 == 0 && (c.month - 1) % 12 == c.month - 1;
    FiveYears(c.year);
  }

  lemma FiveYears(y: int)
    ensures FirstOfYear(y) + 1825 <= FirstOfYear(y + 5)
  {
    assert FirstOfYear(y) + 365 <= FirstOfYear(y + 1);
    assert FirstOfYear(y + 1) + 365 <= FirstOfYear(y + 2);
    assert FirstOfYear(y + 2) + 365 <= FirstOfYear(y + 3);
    assert FirstOfYear(y + 3) + 365 <= FirstOfYear(y + 4);
    assert FirstOfYear(y + 4) + 365 <= FirstOfYear(y + 5);
  }

  /** In the stretch `[first, next)` around or after the cursor, the search stops or moves on. */
  lemma StretchSearch(p: Day -> bool, cursor: Day, first: Day, next: Day, fire: Day)
    requires OnlyFire(p, first, next, fire) && cursor < next
    requires cursor < first ==> NoneIn(p, cursor, first)
    ensures cursor <= fire ==> FirstFrom(p, cursor, fire)
    ensures fire < cursor ==> first <= cursor && NoneIn(p, cursor, next)
  {
  }

  lemma NextWeekday(start: Day, w: int) returns (d: Day)
    requires 0 <= w <= 6
    ensures start <= d < start + 7 && Weekday(d) == w
  {
    d := start + (w - Weekday(start)) % 7;
  }

  method SearchWeekdays(start: Day, daysOfWeek: seq<int>) returns (fire: Option<Day>)
    ensures fire.Some? ==> FirstFrom(OnWeekdays(daysOfWeek), start, fire.value)
    ensures fire.None? <==> forall w :: 0 <= w <= 6 ==> w !in daysOfWeek
  {
    var cursor := start;
    for i := 0 to 14
      invariant cursor == start + i
      invariant forall d :: start <= d < cursor ==> Weekday(d) !in daysOfWeek
    {
      if Weekday(cursor) in daysOfWeek {
        return Some(cursor);
      }
      cursor := cursor + 1;
    }
    forall w | 0 <= w <= 6
      ensures w !in daysOfWeek
    {
      var d := NextWeekday(start, w);
    }
    fire := None;
  }

  method SearchMonths(cursor: Day, targetDay: int) returns (res: Option<Day>)
    ensures res.Some? && FirstFrom(MonthlyOn(targetDay), cursor, res.value)
  {
    var date := CivilOf(cursor);
    hide CivilOf, ResolveMonthDay, FirstOfMonth;
    NextMonthStarts(date.year, date.month);
    var y, m := date.year, date.month;
    ghost var p := MonthlyOn(targetDay);
    res := None;
    for i := 0 to 14
      invariant i <= 1 && cursor < NextMonth(y, m)
      invariant i == 1 ==> cursor < FirstOfMonth(y, m) && NoneIn(p, cursor, FirstOfMonth(y, m))
      invariant i == 0 ==> FirstOfMonth(y, m) <= cursor
    {
      var fire := ResolveMonthDay(y, m, targetDay);
      OneFirePerMonth(y, m, targetDay);
      StretchSearch(p, cursor, FirstOfMonth(y, m), NextMonth(y, m), fire);
      if fire >= cursor {
        return Some(fire);
      }
      y, m := AdvanceMonth(y, m).0, AdvanceMonth(y, m).1;
      NextMonthStarts(y, m);
    }
    assert false;
  }

  method SearchYears(cursor: Day, month: Month, day: int) returns (res: Option<Day>)
    ensures res.Some? && FirstFrom(YearlyOn(month, day), cursor, res.value)
  {
    var y := CivilOf(cursor).year;
    InItsYear(cursor);
    hide CivilOf, ResolveMonthDay, FirstOfYear;
    ghost var p := YearlyOn(month, day);
    res := None;
    for i := 0 to 6
      invariant i <= 1 && cursor < FirstOfYear(y + 1)
      invariant i == 1 ==> cursor < FirstOfYear(y) && NoneIn(p, cursor, FirstOfYear(y))
      invariant i == 0 ==> FirstOfYear(y) <= cursor
    {
      var fire := ResolveMonthDay(y, month, day);
      OneFirePerYear(y, month, day);
      StretchSearch(p, cursor, FirstOfYear(y), FirstOfYear(y + 1), fire);
      if fire >= cursor {
        return Some(fire);
      }
      y := y + 1;
      YearIsLong(y);
    }
    assert false;
  }

  lemma YearIsLong(y: int)
    ensures FirstOfYear(y) + 365 <= FirstOfYear(y + 1)
  {
  }

  /** From the loop property on or after the cursor to the point test after `afterDay`. */
  lemma FirstFromFires(r: Rule, zone: Zone, afterDay: Day, cursor: Day, fire: Day)
    requires cursor == Max(StartOfDayIn(r.startDate, zone), afterDay + 1)
    requires FirstFrom(Enumerated(r, StartOfDayIn(r.startDate, zone)), cursor, fire)
    ensures FiresToday(r, zone, fire) && afterDay < fire
    ensures forall d :: afterDay < d < fire ==> !FiresToday(r, zone, d)
  {
    EnumeratedFires(r, zone, fire);
    forall d | afterDay < d < fire
      ensures !FiresToday(r, zone, d)
    {
      if cursor <= d {
        EnumeratedFires(r, zone, d);
      }
    }
  }

  /** The least firing day strictly after `after`, unless the rule starts more than five years
      on, has an unknown frequency, or lists no weekday in 0..6. */
  method NextOccurrenceAfter(r: Rule, after: Instant, zone: Zone) returns (res: Option<Day>)
    ensures res.None? <==> GivesUp(r, after, zone)
    ensures res.Some? ==>
              && FiresToday(r, zone, res.value)
              && StartOfDayIn(after, zone) < res.value
              && forall d :: StartOfDayIn(after, zone) < d < res.value ==> !FiresToday(r, zone, d)
  {
    var startDay := StartOfDayIn(r.startDate, zone);
    var afterDay := StartOfDayIn(after, zone);
    var horizon := Horizon(afterDay);
    HorizonIsFar(afterDay);
    hide CivilOf, ResolveMonthDay, Horizon, FiresToday, StartOfDayIn;
    if startDay > horizon {
      return None;
    }
    var cursor := startDay;
    if cursor <= afterDay {
      cursor := afterDay + 1;
    }
    match r.frequency {
      case Daily =>
        res := Some(cursor);
      case Weekly =>
        if |r.daysOfWeek| == 0 {
          var from := cursor;
          var mod := (cursor - startDay) % 7;
          if mod != 0 {
            cursor := cursor + (7 - mod);
          }
          SnapsToGrid(startDay, from, cursor, cursor);
          if cursor > horizon {
            assert false;
          }
          res := Some(cursor);
          cursor := from;
        } else {
          res := SearchWeekdays(cursor, r.daysOfWeek);
        }
      case Monthly =>
        res := SearchMonths(cursor, TargetDay(r, startDay));
      case Yearly =>
        var s := CivilOf(startDay);
        res := SearchYears(cursor, s.month, s.day);
      case Unknown(_) =>
        res := None;
    }
    if res.Some? {
      FirstFromFires(r, zone, afterDay, cursor, res.value);
    }
  }
}
