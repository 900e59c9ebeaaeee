/** When a recurring rule fires: the point test `FiresToday`, the five enumerating loops
    behind `AllMissedOccurrences`, and the bounded search `NextOccurrenceAfter`. */
module Recurrence {
  import opened Wrappers
  import opened Calendar

  /** Seconds since 1970-01-01T00:00:00Z. */
  type Instant = int

  /** Seconds east of UTC, fixed. */
  type Zone = int

  const UTC: Zone := 0
  const SECONDS_PER_DAY := 86400

  /** Every string other than the four known ones takes the `default:` branches. */
  datatype Frequency = Daily | Weekly | Monthly | Yearly | Unknown(name: string)

  datatype Rule = Rule(
    startDate: Instant,
    frequency: Frequency,
    dayOfMonth: Option<int>,
    daysOfWeek: seq<int>)

  function StartOfDayIn(t: Instant, zone: Zone): Day {
    (t + zone) / SECONDS_PER_DAY
  }

  function TargetDay(r: Rule, startDay: Day): int {
    match r.dayOfMonth
    case Some(d) => d
    case None => CivilOf(startDay).day
  }

  /** The point test; `today` is already the start of a day. */
  function FiresToday(r: Rule, zone: Zone, today: Day): bool {
    var startDay := StartOfDayIn(r.startDate, zone);
    if today < startDay then false
    else match r.frequency
    case Daily => true
    case Weekly =>
      if |r.daysOfWeek| == 0 then (today - startDay) % 7 == 0
      else Weekday(today) in r.daysOfWeek
    case Monthly =>
      var c := CivilOf(today);
      ResolveMonthDay(c.year, c.month, TargetDay(r, startDay)) == today
    case Yearly =>
      var s := CivilOf(startDay);
      ResolveMonthDay(CivilOf(today).year, s.month, s.day) == today
    case Unknown(_) => false
  }

  // ----- Days with a property, in order -----

  ghost function DaysWhere(p: Day -> bool, lo: Day, hi: Day): seq<Day>
    decreases hi - lo
  {
    if hi < lo then [] else DaysWhere(p, lo, hi - 1) + if p(hi) then [hi] else []
  }

  ghost predicate Increasing(s: seq<Day>) {
    forall i, j :: 0 <= i < j < |s| ==> s[i] < s[j]
  }

  lemma {:induction false} DaysWhereExact(p: Day -> bool, lo: Day, hi: Day)
    ensures Increasing(DaysWhere(p, lo, hi))
    ensures forall d :: d in DaysWhere(p, lo, hi) <==> lo <= d <= hi && p(d)
    decreases hi - lo
  {
    if lo <= hi {
      DaysWhereExact(p, lo, hi - 1);
      var before := DaysWhere(p, lo, hi - 1);
      assert forall i :: 0 <= i < |before| ==> before[i] in before;
    }
  }

  lemma {:induction false} DaysWhereSplit(p: Day -> bool, lo: Day, mid: Day, hi: Day)
    requires lo <= mid + 1 && mid <= hi
    ensures DaysWhere(p, lo, hi) == DaysWhere(p, lo, mid) + DaysWhere(p, mid + 1, hi)
    decreases hi - mid
  {
    if mid < hi {
      DaysWhereSplit(p, lo, mid, hi - 1);
    }
  }

  lemma {:induction false} DaysWhereAgree(p: Day -> bool, q: Day -> bool, lo: Day, hi: Day)
    requires forall d :: lo <= d <= hi ==> p(d) == q(d)
    ensures DaysWhere(p, lo, hi) == DaysWhere(q, lo, hi)
    decreases hi - lo
  {
    if lo <= hi {
      DaysWhereAgree(p, q, lo, hi - 1);
    }
  }

  /** Days without the property add nothing. */
  lemma {:induction false} NoneAfter(p: Day -> bool, lo: Day, mid: Day, hi: Day)
    requires mid <= hi
    requires forall d :: mid < d <= hi && lo <= d ==> !p(d)
    ensures DaysWhere(p, lo, hi) == DaysWhere(p, lo, mid)
    decreases hi - mid
  {
    if mid < hi {
      NoneAfter(p, lo, mid, hi - 1);
    }
  }

  /** The days with property `p` from `cursor` on, no later than `today`, that lie before `first`. */
  ghost function Before(p: Day -> bool, cursor: Day, today: Day, first: Day): seq<Day> {
    DaysWhere(p, cursor, Min(today, first - 1))
  }

  /** What one turn of an enumerating loop does: the stretch `[first, next)` holds the one day
      `fire`, which is before the cursor, or due, or still to come. */
  ghost predicate Turns(p: Day -> bool, cursor: Day, today: Day, first: Day, next: Day, fire: Day) {
    && first <= fire < next
    && (fire < cursor <= today ==> Before(p, cursor, today, next) == Before(p, cursor, today, first))
    && (cursor <= fire <= today ==> Before(p, cursor, today, next) == Before(p, cursor, today, first) + [fire])
    && (today < fire ==> DaysWhere(p, cursor, today) == Before(p, cursor, today, first))
  }

  /** `fire` is the one day of `[first, next)` with property `p`. */
  ghost predicate OnlyFire(p: Day -> bool, first: Day, next: Day, fire: Day) {
    first <= fire < next && forall d :: first <= d < next ==> (p(d) <==> d == fire)
  }

  lemma StretchTurns(p: Day -> bool, cursor: Day, today: Day, first: Day, next: Day, fire: Day)
    requires OnlyFire(p, first, next, fire)
    ensures Turns(p, cursor, today, first, next, fire)
  {
    if today < fire {
      NoneAfter(p, cursor, Min(today, first - 1), today);
    } else {
      NoneAfter(p, cursor, first - 1, fire - 1);
      NoneAfter(p, cursor, fire, Min(today, next - 1));
    }
  }

  // ----- The properties the loops enumerate -----

  ghost function Always(): Day -> bool {
    (d: Day) => true
  }

  ghost function EverySeventh(startDay: Day): Day -> bool {
    (d: Day) => (d - startDay) % 7 == 0
  }

  ghost function OnWeekdays(daysOfWeek: seq<int>): Day -> bool {
    (d: Day) => Weekday(d) in daysOfWeek
  }

  ghost function MonthlyOn(targetDay: int): Day -> bool {
    (d: Day) => var c := CivilOf(d); ResolveMonthDay(c.year, c.month, targetDay) == d
  }

  ghost function YearlyOn(month: Month, day: int): Day -> bool {
    (d: Day) => ResolveMonthDay(CivilOf(d).year, month, day) == d
  }

  /** Each month holds one monthly fire. */
  lemma OneFirePerMonth(y: int, m: Month, targetDay: int)
    ensures OnlyFire(MonthlyOn(targetDay), FirstOfMonth(y, m), NextMonth(y, m), ResolveMonthDay(y, m, targetDay))
  {
    hide ResolveMonthDay, CivilOf, FirstOfMonth, NextMonth;
    var fire := ResolveMonthDay(y, m, targetDay);
    ResolveMonthDayClamps(y, m, targetDay);
    forall d | FirstOfMonth(y, m) <= d < NextMonth(y, m)
      ensures MonthlyOn(targetDay)(d) <==> d == fire
    {
      InMonth(d, y, m);
    }
  }

  lemma InItsYear(d: Day)
    ensures FirstOfYear(CivilOf(d).year) <= d < FirstOfYear(CivilOf(d).year + 1)
  {
    DateInYear(CivilOf(d));
  }

  lemma ResolvesInYear(y: int, m: Month, day: int)
    ensures FirstOfYear(y) <= ResolveMonthDay(y, m, day) < FirstOfYear(y + 1)
  {
    ResolveMonthDayClamps(y, m, day);
    NextMonthStarts(y, m);
    MonthStartsInYear(y, m);
  }

  /** Each year holds one anniversary. */
  lemma OneFirePerYear(y: int, month: Month, day: int)
    ensures OnlyFire(YearlyOn(month, day), FirstOfYear(y), FirstOfYear(y + 1), ResolveMonthDay(y, month, day))
  {
    hide ResolveMonthDay, CivilOf, FirstOfYear;
    var fire := ResolveMonthDay(y, month, day);
    ResolvesInYear(y, month, day);
    forall d | FirstOfYear(y) <= d < FirstOfYear(y + 1)
      ensures YearlyOn(month, day)(d) <==> d == fire
    {
      InItsYear(d);
      YearIsUnique(d, y, CivilOf(d).year);
    }
  }

  // ----- The enumerating loops -----

  method CollectDaily(start: Day, today: Day) returns (out: seq<Day>)
    requires start <= today
    ensures out == DaysWhere(Always(), start, today)
  {
    out := [];
    var cursor := start;
    while cursor <= today
      invariant start <= cursor <= today + 1
      invariant out == DaysWhere(Always(), start, cursor - 1)
    {
      out := out + [cursor];
      cursor := cursor + 1;
    }
  }

  lemma WeekTurns(startDay: Day, from: Day, today: Day, cursor: Day)
    requires (cursor - startDay) % 7 == 0
    ensures Turns(EverySeventh(startDay), from, today, cursor, cursor + 7, cursor)
    ensures (cursor + 7 - startDay) % 7 == 0
  {
    StretchTurns(EverySeventh(startDay), from, today, cursor, cursor + 7, cursor);
  }

  /** The first day of the grid on or after `from`. */
  lemma SnapsToGrid(startDay: Day, from: Day, today: Day, cursor: Day)
    requires cursor == (var mod := (from - startDay) % 7; if mod != 0 then from + (7 - mod) else from)
    ensures from <= cursor < from + 7 && (cursor - startDay) % 7 == 0
    ensures forall d :: from <= d < cursor ==> !EverySeventh(startDay)(d)
    ensures Before(EverySeventh(startDay), from, today, cursor) == []
  {
    NoneAfter(EverySeventh(startDay), from, Min(today, from - 1), Min(today, cursor - 1));
  }

  method CollectWeeklyAligned(startDay: Day, from: Day, today: Day) returns (out: seq<Day>)
    requires startDay <= from <= today
    ensures out == DaysWhere(EverySeventh(startDay), from, today)
  {
    var cursor := from;
    var mod := (cursor - startDay) % 7;
    if mod != 0 {
      cursor := cursor + (7 - mod);
    }
    SnapsToGrid(startDay, from, today, cursor);
    out := [];
    while cursor <= today
      invariant from <= cursor && (cursor - startDay) % 7 == 0
      invariant out == Before(EverySeventh(startDay), from, today, cursor)
    {
      out := out + [cursor];
      WeekTurns(startDay, from, today, cursor);
      cursor := cursor + 7;
    }
  }

  method CollectWeeklyByDay(start: Day, today: Day, daysOfWeek: seq<int>) returns (out: seq<Day>)
    requires start <= today
    ensures out == DaysWhere(OnWeekdays(daysOfWeek), start, today)
  {
    out := [];
    var cursor := start;
    while cursor <= today
      invariant start <= cursor <= today + 1
      invariant out == DaysWhere(OnWeekdays(daysOfWeek), start, cursor - 1)
    {
      if Weekday(cursor) in daysOfWeek {
        out := out + [cursor];
      }
      cursor := cursor + 1;
    }
  }

  lemma MonthTurns(targetDay: int, cursor: Day, today: Day, y: int, m: Month)
    ensures Turns(MonthlyOn(targetDay), cursor, today, FirstOfMonth(y, m), NextMonth(y, m),
        ResolveMonthDay(y, m, targetDay))
  {
    OneFirePerMonth(y, m, targetDay);
    StretchTurns(MonthlyOn(targetDay), cursor, today, FirstOfMonth(y, m), NextMonth(y, m),
        ResolveMonthDay(y, m, targetDay));
  }

  method CollectMonthly(cursor: Day, today: Day, targetDay: int) returns (out: seq<Day>)
    requires cursor <= today
    ensures out == DaysWhere(MonthlyOn(targetDay), cursor, today)
  {
    out := [];
    var date := CivilOf(cursor);
    var y, m := date.year, date.month;
    assert FirstOfMonth(y, m) <= cursor;
    while true
      invariant out == Before(MonthlyOn(targetDay), cursor, today, FirstOfMonth(y, m))
      decreases today - FirstOfMonth(y, m)
    {
      var fire := ResolveMonthDay(y, m, targetDay);
      var (y', m') := AdvanceMonth(y, m);
      MonthTurns(targetDay, cursor, today, y, m);
      if fire < cursor {
        y, m := y', m';
        continue;
      }
      if fire > today {
        return;
      }
      out := out + [fire];
      y, m := y', m';
    }
  }

  lemma YearTurns(month: Month, day: int, cursor: Day, today: Day, y: int)
    ensures Turns(YearlyOn(month, day), cursor, today, FirstOfYear(y), FirstOfYear(y + 1),
        ResolveMonthDay(y, month, day))
  {
    OneFirePerYear(y, month, day);
    StretchTurns(YearlyOn(month, day), cursor, today, FirstOfYear(y), FirstOfYear(y + 1),
        ResolveMonthDay(y, month, day));
  }

  method CollectYearly(cursor: Day, today: Day, month: Month, day: int) returns (out: seq<Day>)
    requires cursor <= today
    ensures out == DaysWhere(YearlyOn(month, day), cursor, today)
  {
    out := [];
    var y := CivilOf(cursor).year;
    InItsYear(cursor);
    hide ResolveMonthDay, FirstOfYear, YearlyOn;
    while true
      invariant out == Before(YearlyOn(month, day), cursor, today, FirstOfYear(y))
      decreases today - FirstOfYear(y)
    {
      var fire := ResolveMonthDay(y, month, day);
      YearTurns(month, day, cursor, today, y);
      if fire < cursor {
        y := y + 1;
        continue;
      }
      if fire > today {
        return;
      }
      out := out + [fire];
      y := y + 1;
    }
  }

  // ----- The whole enumeration -----

  ghost function Never(): Day -> bool {
    (d: Day) => false
  }

  /** The property the loop for `r` enumerates. */
  ghost function Enumerated(r: Rule, startDay: Day): Day -> bool {
    match r.frequency
    case Daily => Always()
    case Weekly => if |r.daysOfWeek| == 0 then EverySeventh(startDay) else OnWeekdays(r.daysOfWeek)
    case Monthly => MonthlyOn(TargetDay(r, startDay))
    case Yearly => YearlyOn(CivilOf(startDay).month, CivilOf(startDay).day)
    case Unknown(_) => Never()
  }

  /** The first day the enumeration looks at. */
  function ResumeDay(r: Rule, lastAdded: Option<Instant>, zone: Zone): Day {
    var startDay := StartOfDayIn(r.startDate, zone);
    match lastAdded
    case Some(t) => Max(startDay, StartOfDayIn(t, zone) + 1)
    case None => startDay
  }

  ghost function Firing(r: Rule, zone: Zone): Day -> bool {
    (d: Day) => FiresToday(r, zone, d)
  }

  /** What the enumeration is for, said with the point test alone. */
  ghost function Missed(r: Rule, lastAdded: Option<Instant>, today: Instant, zone: Zone): seq<Day> {
    DaysWhere(Firing(r, zone), ResumeDay(r, lastAdded, zone), StartOfDayIn(today, zone))
  }

  /** The loop property and the point test agree from the start day on. */
  lemma EnumeratedFires(r: Rule, zone: Zone, d: Day)
    requires StartOfDayIn(r.startDate, zone) <= d
    ensures Enumerated(r, StartOfDayIn(r.startDate, zone))(d) == FiresToday(r, zone, d)
  {
    hide ResolveMonthDay, CivilOf, Weekday;
  }

  lemma NothingBefore(r: Rule, zone: Zone)
    ensures forall d :: FiresToday(r, zone, d) ==> StartOfDayIn(r.startDate, zone) <= d
  {
    hide ResolveMonthDay, CivilOf, Weekday;
  }

  lemma EnumeratedIsFiring(r: Rule, zone: Zone, lo: Day, hi: Day)
    requires StartOfDayIn(r.startDate, zone) <= lo
    ensures DaysWhere(Enumerated(r, StartOfDayIn(r.startDate, zone)), lo, hi) == DaysWhere(Firing(r, zone), lo, hi)
  {
    var startDay := StartOfDayIn(r.startDate, zone);
    forall d | lo <= d <= hi
      ensures Enumerated(r, startDay)(d) == Firing(r, zone)(d)
    {
      EnumeratedFires(r, zone, d);
    }
    hide Enumerated, Firing;
    DaysWhereAgree(Enumerated(r, startDay), Firing(r, zone), lo, hi);
  }

  method AllMissedOccurrences(r: Rule, lastAdded: Option<Instant>, today: Instant, zone: Zone)
    returns (out: seq<Day>)
    ensures out == Missed(r, lastAdded, today, zone)
    ensures Increasing(out)
    ensures forall d :: d in out <==>
              && FiresToday(r, zone, d)
              && d <= StartOfDayIn(today, zone)
              && (lastAdded.Some? ==> StartOfDayIn(lastAdded.value, zone) < d)
  {
    var startDay := StartOfDayIn(r.startDate, zone);
    var todayDay := StartOfDayIn(today, zone);
    NothingBefore(r, zone);
    hide FiresToday, StartOfDayIn, CivilOf;
    DaysWhereExact(Firing(r, zone), ResumeDay(r, lastAdded, zone), todayDay);
    if startDay > todayDay {
      return [];
    }
    var cursor := startDay;
    if lastAdded.Some? {
      var la := StartOfDayIn(lastAdded.value, zone);
      if la >= cursor {
        cursor := la + 1;
      }
    }
    if cursor > todayDay {
      return [];
    }
    match r.frequency {
      case Daily =>
        out := CollectDaily(cursor, todayDay);
      case Weekly =>
        if |r.daysOfWeek| == 0 {
          out := CollectWeeklyAligned(startDay, cursor, todayDay);
        } else {
          out := CollectWeeklyByDay(cursor, todayDay, r.daysOfWeek);
        }
      case Monthly =>
        out := CollectMonthly(cursor, todayDay, TargetDay(r, startDay));
      case Yearly =>
        var s := CivilOf(startDay);
        out := CollectYearly(cursor, todayDay, s.month, s.day);
      case Unknown(_) =>
        out := [];
        NoneAfter(Never(), cursor, cursor - 1, todayDay);
    }
    EnumeratedIsFiring(r, zone, cursor, todayDay);
  }
}
