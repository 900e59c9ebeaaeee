/** The scheduler tick, with the occurrences users have deleted. A tick thinks in days of the user's
    zone; a delete records its skip as a day of the server's zone. */
module Scheduler {
  import opened Wrappers
  import opened Calendar
  import opened Recurrence
  import opened RecurrenceLaws

  type User = int
  type RuleId = int
  type TxId = nat

  /** A row of recurring_transactions. */
  datatype RuleRow = RuleRow(id: RuleId, user: User, isActive: bool, rule: Rule, endDate: Option<Instant>, amount: int)

  /** A row of transactions with recurring_transaction_id set. */
  datatype Occurrence = Occurrence(user: User, rule: RuleId, date: Instant, amount: int)

  /** `nextId` stands for the supply of new row ids. */
  datatype State = State(rows: map<TxId, Occurrence>, skipped: set<(RuleId, Day)>, nextId: TxId)

  /** What does not change: the rules, the users' zones, and the zone in which the server turns an
      instant into a date. */
  datatype Env = Env(rules: seq<RuleRow>, zones: map<User, Zone>, server: Zone)

  const EMPTY := State(map[], {}, 0)

  // ----- Days and instants -----

  /** An unknown user has UTC. */
  function ZoneOf(env: Env, user: User): Zone {
    if user in env.zones then env.zones[user] else UTC
  }

  /** When day `d` starts in `zone`. */
  function Midnight(d: Day, zone: Zone): Instant {
    d * SECONDS_PER_DAY - zone
  }

  /** How many days later than the user's day the server dates the user's midnight. */
  function Shift(env: Env, user: User): int {
    (env.server - ZoneOf(env, user)) / SECONDS_PER_DAY
  }

  /** The server dates the user's midnight with the user's day. */
  predicate SameDay(env: Env, user: User) {
    0 <= env.server - ZoneOf(env, user) < SECONDS_PER_DAY
  }

  lemma MidnightElsewhere(d: Day, zone: Zone, server: Zone)
    ensures StartOfDayIn(Midnight(d, zone), zone) == d
    ensures StartOfDayIn(Midnight(d, zone), server) == d + (server - zone) / SECONDS_PER_DAY
  {
    var gap := server - zone;
    assert Midnight(d, zone) + server == (d + gap / SECONDS_PER_DAY) * SECONDS_PER_DAY + gap % SECONDS_PER_DAY;
  }

  /** Only then is a skip recorded on the day that is skipped. */
  lemma NoShiftIff(env: Env, user: User)
    ensures Shift(env, user) == 0 <==> SameDay(env, user)
  {
  }

  // ----- One tick, one delete -----

  /** The rule fires on `today` and has not ended. */
  predicate Due(r: RuleRow, zone: Zone, today: Day) {
    && r.isActive
    && FiresToday(r.rule, zone, today)
    && (r.endDate.Some? ==> today <= StartOfDayIn(r.endDate.value, zone))
  }

  predicate Taken(rows: map<TxId, Occurrence>, user: User, rule: RuleId, date: Instant) {
    exists id :: id in rows && rows[id].user == user && rows[id].rule == rule && rows[id].date == date
  }

  /** One rule in one tick: due, not skipped, and inserted unless the unique index has the key. */
  function TickRule(s: State, r: RuleRow, zone: Zone, user: User, today: Day): State {
    if r.user != user || !Due(r, zone, today) || (r.id, today) in s.skipped
      || Taken(s.rows, user, r.id, Midnight(today, zone))
    then s
    else State(s.rows[s.nextId := Occurrence(user, r.id, Midnight(today, zone), r.amount)], s.skipped, s.nextId + 1)
  }

  function TickRules(s: State, rules: seq<RuleRow>, zone: Zone, user: User, today: Day): State {
    if rules == [] then s
    else TickRule(TickRules(s, rules[..|rules| - 1], zone, user, today), rules[|rules| - 1], zone, user, today)
  }

  /** A user deletes an occurrence: the row goes, and the day its date has for the server is skipped
      from then on. */
  function DeleteRow(s: State, caller: User, id: TxId, server: Zone): State {
    if id !in s.rows || s.rows[id].user != caller then s
    else
      var row := s.rows[id];
      s.(rows := s.rows - {id}, skipped := s.skipped + {(row.rule, StartOfDayIn(row.date, server))})
  }

  /** A user gives an occurrence another date, unless the unique index has the key. */
  function MoveRow(s: State, caller: User, id: TxId, date: Instant): State {
    if id !in s.rows || s.rows[id].user != caller || KeyTaken(s.rows, id, s.rows[id].(date := date)) then s
    else s.(rows := s.rows[id := s.rows[id].(date := date)])
  }

  predicate SameKey(a: Occurrence, b: Occurrence) {
    a.rule == b.rule && a.date == b.date
  }

  /** Another row than `id` has the key of `row`. */
  predicate KeyTaken(rows: map<TxId, Occurrence>, id: TxId, row: Occurrence) {
    exists jd :: jd in rows && jd != id && rows[jd].user == row.user && SameKey(rows[jd], row)
  }

  class Store {
    const env: Env
    var rows: map<TxId, Occurrence>
    var skipped: set<(RuleId, Day)>
    var nextId: TxId

    constructor (env: Env)
      ensures this.env == env && Contents() == EMPTY
    {
      this.env := env;
      rows, skipped, nextId := map[], {}, 0;
    }

    ghost function Contents(): State
      reads this
    {
      State(rows, skipped, nextId)
    }

    method GenerateDueTransactions(user: User, now: Instant)
      modifies this
      ensures Contents() == Step(old(Contents()), Tick(user, now), env)
    {
      var zone := ZoneOf(env, user);
      var today := StartOfDayIn(now, zone);
      var rules := env.rules;
      for i := 0 to |rules|
        invariant Contents() == TickRules(old(Contents()), rules[..i], zone, user, today)
      {
        assert rules[..i + 1][..i] == rules[..i];
        var r := rules[i];
        if r.user != user || !r.isActive {
          continue;
        }
        if !FiresToday(r.rule, zone, today) {
          continue;
        }
        if r.endDate.Some? && today > StartOfDayIn(r.endDate.value, zone) {
          continue;
        }
        if (r.id, today) in skipped {
          continue;
        }
        if !Taken(rows, user, r.id, Midnight(today, zone)) {
          rows := rows[nextId := Occurrence(user, r.id, Midnight(today, zone), r.amount)];
          nextId := nextId + 1;
        }
      }
      assert rules[..|rules|] == rules;
    }

    /** The date of a PATCH. */
    method UpdateTransaction(caller: User, id: TxId, date: Instant) returns (moved: bool)
      modifies this
      ensures moved <==> id in old(rows) && old(rows)[id].user == caller
                         && !KeyTaken(old(rows), id, old(rows)[id].(date := date))
      ensures Contents() == Step(old(Contents()), Move(caller, id, date), env)
    {
      if id !in rows || rows[id].user != caller {
        return false;
      }
      var row := rows[id].(date := date);
      if KeyTaken(rows, id, row) {
        return false;
      }
      rows := rows[id := row];
      moved := true;
    }

    method DeleteTransaction(caller: User, id: TxId) returns (deleted: bool)
      modifies this
      ensures deleted == (id in old(rows) && old(rows)[id].user == caller)
      ensures Contents() == Step(old(Contents()), Delete(caller, id), env)
    {
      if id !in rows || rows[id].user != caller {
        return false;
      }
      var row := rows[id];
      rows := rows - {id};
      skipped := skipped + {(row.rule, StartOfDayIn(row.date, env.server))};
      deleted := true;
    }
  }

  // ----- Runs -----

  datatype Event =
    | Tick(user: User, now: Instant)
    | Delete(caller: User, id: TxId)
    | Move(caller: User, id: TxId, date: Instant)

  function Step(s: State, e: Event, env: Env): State {
    match e
    case Tick(user, now) =>
      TickRules(s, env.rules, ZoneOf(env, user), user, StartOfDayIn(now, ZoneOf(env, user)))
    case Delete(caller, id) => DeleteRow(s, caller, id, env.server)
    case Move(caller, id, date) => MoveRow(s, caller, id, date)
  }

  function Run(events: seq<Event>, env: Env): State {
    if events == [] then EMPTY
    else Step(Run(events[..|events| - 1], env), events[|events| - 1], env)
  }

  /** A tick of `user` on the user's day `d`. */
  predicate TicksOn(e: Event, env: Env, user: User, d: Day) {
    e.Tick? && e.user == user && StartOfDayIn(e.now, ZoneOf(env, user)) == d
  }

  ghost predicate Ticked(events: seq<Event>, env: Env, user: User, d: Day) {
    exists e :: e in events && TicksOn(e, env, user, d)
  }

  ghost predicate DistinctIds(rules: seq<RuleRow>) {
    forall i, j :: 0 <= i < j < |rules| ==> rules[i].id != rules[j].id
  }

  /** The rule is due on the user's day `d`. */
  predicate DueOn(env: Env, r: RuleRow, d: Day) {
    Due(r, ZoneOf(env, r.user), d)
  }

  predicate Live(s: State, env: Env, r: RuleRow, d: Day) {
    Taken(s.rows, r.user, r.id, Midnight(d, ZoneOf(env, r.user)))
  }

  predicate Skipped(s: State, r: RuleRow, d: Day) {
    (r.id, d) in s.skipped
  }

  ghost predicate Handled(s: State, env: Env, r: RuleRow, d: Day) {
    Live(s, env, r, d) || Skipped(s, r, d)
  }

  /** A row is its rule owner's, and of the rule's amount. */
  ghost predicate RowOk(env: Env, row: Occurrence) {
    exists r :: r in env.rules && r.id == row.rule && r.user == row.user && r.amount == row.amount
  }

  /** One row per rule and date. */
  ghost predicate Inv(s: State, env: Env) {
    && (forall id :: id in s.rows ==> id < s.nextId)
    && (forall id :: id in s.rows ==> RowOk(env, s.rows[id]))
    && (forall id, jd :: id in s.rows && jd in s.rows && SameKey(s.rows[id], s.rows[jd]) ==> id == jd)
  }

  /** The rows of `r` are where ticks put them, at midnights of its owner. */
  ghost predicate OnMidnights(s: State, env: Env, r: RuleRow) {
    forall id :: id in s.rows && s.rows[id].rule == r.id ==>
      exists d :: s.rows[id].date == Midnight(d, ZoneOf(env, r.user))
  }

  /** No live occurrence is on a skipped day. */
  ghost predicate Apart(s: State, env: Env, r: RuleRow) {
    forall d :: !(Live(s, env, r, d) && Skipped(s, r, d))
  }

  // ----- What one event does to the days of a rule -----

  /** A tick of `user` on day `d` sees to it that the rule has its row. */
  predicate Adds(s: State, env: Env, r: RuleRow, user: User, d: Day) {
    r.user == user && DueOn(env, r, d) && !Skipped(s, r, d)
  }

  /** A tick adds today, for the rules of the user that are due and not skipped, and no other day. */
  lemma TickRuleKeeps(s: State, r: RuleRow, env: Env, user: User, today: Day)
    requires DistinctIds(env.rules) && r in env.rules && Inv(s, env)
    ensures var s' := TickRule(s, r, ZoneOf(env, user), user, today);
            && Inv(s', env) && s'.skipped == s.skipped
            && (forall q :: q in env.rules && OnMidnights(s, env, q) ==> OnMidnights(s', env, q))
            && forall q, d :: q in env.rules ==>
                 (Live(s', env, q, d) <==> Live(s, env, q, d) || (q == r && d == today && Adds(s, env, r, user, d)))
  {
    hide FiresToday, StartOfDayIn, ZoneOf;
    var zone := ZoneOf(env, user);
    var s' := TickRule(s, r, zone, user, today);
    if s' != s {
      assert RowOk(env, Occurrence(user, r.id, Midnight(today, zone), r.amount));
      OnlyOwnRows(s, env, r);
      forall q, d | q in env.rules
        ensures Live(s', env, q, d) <==> Live(s, env, q, d) || (q == r && d == today)
      {
        LiveAfterInsert(s, env, q, d, Occurrence(user, r.id, Midnight(today, zone), r.amount));
      }
    }
  }

  /** The rows of a rule are its owner's. */
  lemma OnlyOwnRows(s: State, env: Env, r: RuleRow)
    requires DistinctIds(env.rules) && r in env.rules && Inv(s, env)
    ensures forall id :: id in s.rows && s.rows[id].rule == r.id ==> s.rows[id].user == r.user
  {
    forall id | id in s.rows && s.rows[id].rule == r.id
      ensures s.rows[id].user == r.user
    {
      assert RowOk(env, s.rows[id]);
    }
  }

  lemma LiveAfterInsert(s: State, env: Env, q: RuleRow, d: Day, row: Occurrence)
    requires s.nextId !in s.rows
    ensures Live(s.(rows := s.rows[s.nextId := row]), env, q, d) <==>
            Live(s, env, q, d)
            || (row.user == q.user && row.rule == q.id && row.date == Midnight(d, ZoneOf(env, q.user)))
  {
    var rows' := s.rows[s.nextId := row];
    if Live(s, env, q, d) {
      var id :| id in s.rows && s.rows[id].user == q.user && s.rows[id].rule == q.id
        && s.rows[id].date == Midnight(d, ZoneOf(env, q.user));
      assert rows'[id] == s.rows[id];
    }
    assert rows'[s.nextId] == row;
  }

  lemma {:induction false} TickKeeps(s: State, done: seq<RuleRow>, env: Env, user: User, today: Day)
    requires DistinctIds(env.rules) && done <= env.rules && Inv(s, env)
    ensures var s' := TickRules(s, done, ZoneOf(env, user), user, today);
            && Inv(s', env) && s'.skipped == s.skipped
            && (forall q :: q in env.rules && OnMidnights(s, env, q) ==> OnMidnights(s', env, q))
            && forall q, d :: q in env.rules ==>
                 (Live(s', env, q, d) <==> Live(s, env, q, d) || (q in done && d == today && Adds(s, env, q, user, d)))
  {
    hide FiresToday, StartOfDayIn, Inv, DueOn, Live, OnMidnights;
    if done != [] {
      var shorter, r := done[..|done| - 1], done[|done| - 1];
      TickKeeps(s, shorter, env, user, today);
      TickRuleKeeps(TickRules(s, shorter, ZoneOf(env, user), user, today), r, env, user, today);
      assert done == shorter + [r];
    }
  }

  /** A delete takes one row of one rule away and changes nothing of other rules. If the rule's rows are
      on midnights, it takes one live day, and skips the day `Shift` later. */
  lemma DeleteKeeps(s: State, env: Env, caller: User, id: TxId, r: RuleRow) returns (day: Day)
    requires DistinctIds(env.rules) && Inv(s, env) && r in env.rules && OnMidnights(s, env, r)
    requires id in s.rows && s.rows[id].user == caller
    ensures var s' := DeleteRow(s, caller, id, env.server);
            && Inv(s', env) && OnMidnights(s', env, r) && s.skipped <= s'.skipped
            && if s.rows[id].rule == r.id then
                 && s.rows[id].date == Midnight(day, ZoneOf(env, r.user)) && Live(s, env, r, day)
                 && s'.skipped == s.skipped + {(r.id, day + Shift(env, r.user))}
                 && (forall d :: Live(s', env, r, d) <==> Live(s, env, r, d) && d != day)
               else
                 && (forall d :: Live(s', env, r, d) <==> Live(s, env, r, d))
                 && (forall d :: Skipped(s', r, d) <==> Skipped(s, r, d))
  {
    var s', row := DeleteRow(s, caller, id, env.server), s.rows[id];
    day := 0;
    if row.rule == r.id {
      day :| row.date == Midnight(day, ZoneOf(env, r.user));
      MidnightElsewhere(day, ZoneOf(env, r.user), env.server);
      OnlyOwnRows(s, env, r);
      assert Live(s, env, r, day);
    }
    hide RowOk, StartOfDayIn, Shift, ZoneOf;
    RowsLeft(s, s', env, id, r);
  }

  /** With row `id` gone, the days of its date are. */
  lemma RowsLeft(s: State, s': State, env: Env, id: TxId, r: RuleRow)
    requires Inv(s, env) && id in s.rows && s'.rows == s.rows - {id}
    ensures forall d :: Live(s', env, r, d) <==>
              Live(s, env, r, d) && !(s.rows[id].rule == r.id && s.rows[id].date == Midnight(d, ZoneOf(env, r.user)))
  {
    hide RowOk, ZoneOf, Midnight;
    forall d
      ensures Live(s', env, r, d) <==>
                Live(s, env, r, d) && !(s.rows[id].rule == r.id && s.rows[id].date == Midnight(d, ZoneOf(env, r.user)))
    {
      if Live(s, env, r, d) {
        var jd :| jd in s.rows && s.rows[jd].user == r.user && s.rows[jd].rule == r.id
          && s.rows[jd].date == Midnight(d, ZoneOf(env, r.user));
        assert jd == id || jd in s'.rows;
        assert SameKey(s.rows[id], s.rows[jd]) ==> jd == id;
      }
    }
  }

  /** The event gives a row of the rule another date. */
  predicate Disturbs(s: State, e: Event, r: RuleRow) {
    e.Move? && e.id in s.rows && s.rows[e.id].rule == r.id && s.rows[e.id].date != e.date
  }

  /** A move of another rule's row, or to where the row is, changes nothing of this rule. */
  lemma MoveKeeps(s: State, env: Env, e: Event)
    requires DistinctIds(env.rules) && Inv(s, env) && e.Move?
    ensures var s' := MoveRow(s, e.caller, e.id, e.date);
            && Inv(s', env) && s'.skipped == s.skipped
            && forall r :: !Disturbs(s, e, r) ==>
                 && (OnMidnights(s, env, r) ==> OnMidnights(s', env, r))
                 && (forall d :: Live(s', env, r, d) <==> Live(s, env, r, d))
  {
    var s' := MoveRow(s, e.caller, e.id, e.date);
    hide StartOfDayIn, ZoneOf, Midnight;
    if s' != s {
      MovedInv(s, env, e);
      forall r, d | !Disturbs(s, e, r)
        ensures Live(s', env, r, d) <==> Live(s, env, r, d)
      {
        RowsElsewhere(s, s', env, e.id, r, d);
      }
    }
  }

  lemma MovedInv(s: State, env: Env, e: Event)
    requires DistinctIds(env.rules) && Inv(s, env) && e.Move?
    ensures Inv(MoveRow(s, e.caller, e.id, e.date), env)
  {
    var s' := MoveRow(s, e.caller, e.id, e.date);
    if s' != s {
      assert RowOk(env, s.rows[e.id]) && RowOk(env, s'.rows[e.id]);
      forall id, jd | id in s'.rows && jd in s'.rows && SameKey(s'.rows[id], s'.rows[jd])
        ensures id == jd
      {
        assert SameKey(s.rows[id], s.rows[jd]) ==> id == jd;
        OwnersAgree(s, env, id, jd);
      }
    }
  }

  /** Rows of one rule have one owner, as far as the rules have distinct ids. */
  lemma OwnersAgree(s: State, env: Env, id: TxId, jd: TxId)
    requires Inv(s, env) && id in s.rows && jd in s.rows && s.rows[id].rule == s.rows[jd].rule && DistinctIds(env.rules)
    ensures s.rows[id].user == s.rows[jd].user
  {
    assert RowOk(env, s.rows[id]) && RowOk(env, s.rows[jd]);
  }

  lemma RowsElsewhere(s: State, s': State, env: Env, id: TxId, r: RuleRow, d: Day)
    requires id in s.rows && id in s'.rows && s'.rows == s.rows[id := s'.rows[id]]
    requires s'.rows[id].rule == s.rows[id].rule
    requires s.rows[id].rule != r.id || s'.rows[id] == s.rows[id]
    ensures Live(s', env, r, d) <==> Live(s, env, r, d)
  {
    hide Midnight, ZoneOf;
    forall jd | jd in s.rows && (s.rows[jd].rule == r.id || s'.rows[jd].rule == r.id)
      ensures s'.rows[jd] == s.rows[jd]
    {
    }
  }

  // ----- Whole runs -----

  /** No event of the run gives a row of the rule another date. */
  ghost predicate Undisturbed(events: seq<Event>, env: Env, r: RuleRow) {
    forall k: nat :: k < |events| ==> !Disturbs(Run(events[..k], env), events[k], r)
  }

  lemma UndisturbedBefore(events: seq<Event>, env: Env, r: RuleRow, n: nat)
    requires Undisturbed(events, env, r) && n < |events|
    ensures Undisturbed(events[..n], env, r) && !Disturbs(Run(events[..n], env), events[n], r)
  {
    hide Disturbs, Run;
    forall k: nat | k < n
      ensures !Disturbs(Run(events[..n][..k], env), events[..n][k], r)
    {
      assert events[..n][..k] == events[..k];
    }
  }

  lemma NoMoves(events: seq<Event>, env: Env, r: RuleRow)
    requires forall e :: e in events ==> !e.Move?
    ensures Undisturbed(events, env, r)
  {
  }

  /** Over every run and in every setting: one row per rule and date, its rule owner's. */
  lemma {:induction false} RunKeeps(events: seq<Event>, env: Env)
    requires DistinctIds(env.rules)
    ensures Inv(Run(events, env), env)
  {
    hide FiresToday, StartOfDayIn, DueOn, ZoneOf;
    if events != [] {
      var before, e := events[..|events| - 1], events[|events| - 1];
      RunKeeps(before, env);
      match e
      case Tick(user, now) =>
        TickKeeps(Run(before, env), env.rules, env, user, StartOfDayIn(now, ZoneOf(env, user)));
      case Delete(caller, id) => {}
      case Move(_, _, _) => MovedInv(Run(before, env), env, e);
    }
  }

  /** And the live days of a rule whose rows are not moved are due and ticked days. */
  lemma {:induction false} LiveDaysAreDue(events: seq<Event>, env: Env, r: RuleRow)
    requires DistinctIds(env.rules) && r in env.rules && Undisturbed(events, env, r)
    ensures OnMidnights(Run(events, env), env, r)
    ensures forall d :: Live(Run(events, env), env, r, d) ==> DueOn(env, r, d) && Ticked(events, env, r.user, d)
  {
    hide FiresToday, StartOfDayIn, DueOn, ZoneOf, Inv;
    if events != [] {
      var before, e := events[..|events| - 1], events[|events| - 1];
      UndisturbedBefore(events, env, r, |events| - 1);
      hide Undisturbed, Disturbs;
      LiveDaysAreDue(before, env, r);
      RunKeeps(before, env);
      TickedOneMore(before, e, env);
      assert events == before + [e];
      hide Live, Ticked, OnMidnights;
      match e
      case Tick(user, now) =>
        TickKeeps(Run(before, env), env.rules, env, user, StartOfDayIn(now, ZoneOf(env, user)));
      case Delete(caller, id) =>
        if id in Run(before, env).rows && Run(before, env).rows[id].user == caller {
          var d := DeleteKeeps(Run(before, env), env, caller, id, r);
        }
      case Move(_, _, _) => MoveKeeps(Run(before, env), env, e);
    } else {
      NothingYet(env, r);
    }
  }

  // ----- Rules that are not due, and other users -----

  /** Due by date: active, asked for, from the start date to the end date. */
  lemma DueByDate(env: Env, r: RuleRow, d: Day)
    ensures var zone, date := ZoneOf(env, r.user), CivilOf(d);
            DueOn(env, r, d) <==>
            && r.isActive
            && NotAfter(DateOf(r.rule.startDate, zone), date)
            && (r.endDate.Some? ==> NotAfter(date, DateOf(r.endDate.value, zone)))
            && AsksFor(r.rule, DateOf(r.rule.startDate, zone), date)
  {
    var zone := ZoneOf(env, r.user);
    hide CivilOf, FiresToday, NotAfter, AsksFor, StartOfDayIn, DayNumber, DaysInMonth;
    FiresByDate(r.rule, zone, d);
    if r.endDate.Some? {
      DatesInOrder(CivilOf(d), CivilOf(StartOfDayIn(r.endDate.value, zone)));
    }
  }

  ghost predicate NoRows(s: State, r: RuleRow) {
    forall id :: id in s.rows ==> s.rows[id].rule != r.id
  }

  lemma {:induction false} TickSparesPaused(s: State, done: seq<RuleRow>, env: Env, r: RuleRow, user: User, today: Day)
    requires DistinctIds(env.rules) && done <= env.rules && r in env.rules && !r.isActive && NoRows(s, r)
    ensures NoRows(TickRules(s, done, ZoneOf(env, user), user, today), r)
  {
    hide FiresToday, StartOfDayIn, ZoneOf;
    if done != [] {
      TickSparesPaused(s, done[..|done| - 1], env, r, user, today);
      assert done[|done| - 1] in env.rules;
    }
  }

  /** A paused rule has no row in any run. */
  lemma {:induction false} PausedRuleIsSilent(events: seq<Event>, env: Env, r: RuleRow)
    requires DistinctIds(env.rules) && r in env.rules && !r.isActive
    ensures NoRows(Run(events, env), r)
  {
    if events != [] {
      var before, e := events[..|events| - 1], events[|events| - 1];
      PausedRuleIsSilent(before, env, r);
      hide TickRules;
      if e.Tick? {
        TickSparesPaused(Run(before, env), env.rules, env, r, e.user, StartOfDayIn(e.now, ZoneOf(env, e.user)));
      }
    }
  }

  function Actor(e: Event): User {
    match e
    case Tick(user, _) => user
    case Delete(caller, _) => caller
    case Move(caller, _, _) => caller
  }

  /** The rows of `user` are the same. */
  ghost predicate SameRowsOf(user: User, s: State, s': State) {
    && (forall id :: id in s.rows && s.rows[id].user == user ==> id in s'.rows && s'.rows[id] == s.rows[id])
    && (forall id :: id in s'.rows && s'.rows[id].user == user ==> id in s.rows && s.rows[id] == s'.rows[id])
  }

  lemma {:induction false} TickIsOnesOwn(s: State, done: seq<RuleRow>, env: Env, user: User, today: Day, other: User)
    requires other != user && Inv(s, env) && DistinctIds(env.rules) && done <= env.rules
    ensures SameRowsOf(other, s, TickRules(s, done, ZoneOf(env, user), user, today))
  {
    hide FiresToday, StartOfDayIn, ZoneOf;
    if done != [] {
      TickIsOnesOwn(s, done[..|done| - 1], env, user, today, other);
      hide RowOk;
      TickKeeps(s, done[..|done| - 1], env, user, today);
    }
  }

  /** Nobody's tick, delete or move touches another user's rows. */
  lemma EventsAreOnesOwn(s: State, e: Event, env: Env, other: User)
    requires other != Actor(e) && Inv(s, env) && DistinctIds(env.rules)
    ensures SameRowsOf(other, s, Step(s, e, env))
  {
    hide Inv, TickRules;
    if e.Tick? {
      TickIsOnesOwn(s, env.rules, env, e.user, StartOfDayIn(e.now, ZoneOf(env, e.user)), other);
    }
  }

  lemma TickedOneMore(before: seq<Event>, e: Event, env: Env)
    ensures forall user, d ::
              Ticked(before + [e], env, user, d) <==> Ticked(before, env, user, d) || TicksOn(e, env, user, d)
  {
    hide TicksOn;
    assert forall f :: f in before + [e] <==> f in before || f == e;
  }

  /** A run accounts for a rule: its live and skipped days are the days it was due and ticked on, and
      no day is both. */
  ghost predicate Accounts(events: seq<Event>, env: Env, r: RuleRow) {
    && (forall d :: Handled(Run(events, env), env, r, d) <==>
          DueOn(env, r, d) && Ticked(events, env, r.user, d))
    && Apart(Run(events, env), env, r)
  }

  /** One event handles one day more if it ticks on it and the rule is due. */
  lemma HandledOneMore(s: State, e: Event, env: Env, r: RuleRow)
    requires DistinctIds(env.rules) && r in env.rules && SameDay(env, r.user)
    requires Inv(s, env) && OnMidnights(s, env, r) && Apart(s, env, r) && !Disturbs(s, e, r)
    ensures forall d :: Handled(Step(s, e, env), env, r, d) <==>
              Handled(s, env, r, d) || (TicksOn(e, env, r.user, d) && DueOn(env, r, d))
    ensures Apart(Step(s, e, env), env, r)
  {
    hide FiresToday, StartOfDayIn, DueOn, ZoneOf, Inv, Live, OnMidnights, Disturbs;
    match e
    case Tick(user, now) => TickKeeps(s, env.rules, env, user, StartOfDayIn(now, ZoneOf(env, user)));
    case Delete(caller, id) =>
      if id in s.rows && s.rows[id].user == caller {
        var d := DeleteKeeps(s, env, caller, id, r);
        NoShiftIff(env, r.user);
      }
    case Move(_, _, _) => MoveKeeps(s, env, e);
  }

  /** Every run that moves none of its rows does, where the server dates the owner's midnight with the
      owner's day. */
  lemma {:induction false} RunAccounts(events: seq<Event>, env: Env, r: RuleRow)
    requires DistinctIds(env.rules) && r in env.rules && SameDay(env, r.user) && Undisturbed(events, env, r)
    ensures Accounts(events, env, r)
  {
    hide Step, SameDay, DueOn, Inv, Handled, Ticked, OnMidnights, Undisturbed, Disturbs, Apart;
    if events != [] {
      var before, e := events[..|events| - 1], events[|events| - 1];
      UndisturbedBefore(events, env, r, |events| - 1);
      RunAccounts(before, env, r);
      RunKeeps(before, env);
      LiveDaysAreDue(before, env, r);
      HandledOneMore(Run(before, env), e, env, r);
      TickedOneMore(before, e, env);
      assert events == before + [e];
    } else {
      NothingYet(env, r);
    }
  }

  lemma NothingYet(env: Env, r: RuleRow)
    ensures OnMidnights(EMPTY, env, r) && Apart(EMPTY, env, r)
    ensures forall d :: !Handled(EMPTY, env, r, d) && !Ticked([], env, r.user, d)
  {
  }

  // ----- Deleted occurrences -----

  /** Event `k` is its owner's delete of the occurrence of `r` on day `d`. */
  predicate DeletedAt(events: seq<Event>, k: nat, env: Env, r: RuleRow, d: Day) {
    && k < |events| && events[k].Delete? && events[k].caller == r.user
    && var rows := Run(events[..k], env).rows;
       && events[k].id in rows
       && rows[events[k].id] == Occurrence(r.user, r.id, Midnight(d, ZoneOf(env, r.user)), rows[events[k].id].amount)
  }

  lemma {:induction false} SkipsStay(events: seq<Event>, k: nat, env: Env)
    requires DistinctIds(env.rules) && k <= |events|
    ensures Run(events[..k], env).skipped <= Run(events, env).skipped
  {
    if k == |events| {
      assert events[..k] == events;
    } else {
      var before, e := events[..|events| - 1], events[|events| - 1];
      assert before[..k] == events[..k];
      SkipsStay(before, k, env);
      RunKeeps(before, env);
      if e.Tick? {
        TickKeeps(Run(before, env), env.rules, env, e.user, StartOfDayIn(e.now, ZoneOf(env, e.user)));
      }
    }
  }

  /** What a delete takes away and what it skips. */
  lemma DeleteSkips(events: seq<Event>, k: nat, env: Env, r: RuleRow, d: Day)
    requires DistinctIds(env.rules) && r in env.rules && Undisturbed(events, env, r)
    requires DeletedAt(events, k, env, r, d)
    ensures k < |events|
    ensures var before, after := Run(events[..k], env), Run(events[..k + 1], env);
            && after.skipped == before.skipped + {(r.id, d + Shift(env, r.user))}
            && !Live(after, env, r, d)
  {
    hide Undisturbed, Disturbs, Inv, OnMidnights, Live, ZoneOf, Shift;
    assert events[..k + 1] == events[..k] + [events[k]];
    RunKeeps(events[..k], env);
    UndisturbedBefore(events, env, r, k);
    LiveDaysAreDue(events[..k], env, r);
    var day := DeleteKeeps(Run(events[..k], env), env, events[k].caller, events[k].id, r);
    assert day == d;
  }

  lemma DeletedIsSkipped(events: seq<Event>, k: nat, env: Env, r: RuleRow, d: Day)
    requires DistinctIds(env.rules) && r in env.rules && SameDay(env, r.user) && Undisturbed(events, env, r)
    requires DeletedAt(events, k, env, r, d)
    ensures Skipped(Run(events, env), r, d)
  {
    hide Run, DeletedAt, Shift, Undisturbed, Live, SameDay;
    DeleteSkips(events, k, env, r, d);
    NoShiftIff(env, r.user);
    SkipsStay(events, k + 1, env);
  }

  /** Where the server dates the owner's midnight with the owner's day, and no row of the rule is moved, a
      deleted occurrence is never created again. */
  lemma DeletedStaysDeleted(events: seq<Event>, k: nat, env: Env, r: RuleRow, d: Day)
    requires DistinctIds(env.rules) && r in env.rules && SameDay(env, r.user) && Undisturbed(events, env, r)
    requires DeletedAt(events, k, env, r, d)
    ensures !Live(Run(events, env), env, r, d)
  {
    hide Run, DeletedAt, Undisturbed, Live, SameDay, Handled, Ticked;
    DeletedIsSkipped(events, k, env, r, d);
    RunAccounts(events, env, r);
  }

  /** Anywhere else the next tick of the same day creates it again: the skip is on another day. */
  lemma DeletedComesBack(env: Env, r: RuleRow, d: Day) returns (events: seq<Event>)
    requires DistinctIds(env.rules) && r in env.rules && DueOn(env, r, d) && !SameDay(env, r.user)
    ensures |events| == 3 && events[0] == events[2] && TicksOn(events[0], env, r.user, d)
    ensures (forall e :: e in events ==> !e.Move?) && DeletedAt(events, 1, env, r, d)
    ensures !Handled(Run(events[..2], env), env, r, d)
    ensures Live(Run(events, env), env, r, d)
  {
    var zone := ZoneOf(env, r.user);
    var tick := Tick(r.user, Midnight(d, zone));
    MidnightElsewhere(d, zone, env.server);
    hide DueOn, FiresToday, StartOfDayIn, ZoneOf, Inv, OnMidnights, Undisturbed;
    RunOne(tick, env);
    RunKeeps([], env);
    TickKeeps(EMPTY, env.rules, env, r.user, d);
    var s := Run([tick], env);
    assert Live(s, env, r, d);
    var id :| id in s.rows && s.rows[id].user == r.user && s.rows[id].rule == r.id
        && s.rows[id].date == Midnight(d, zone);
    events := [tick, Delete(r.user, id), tick];
    assert events[..1] == [tick];
    assert events[..2][..1] == [tick] && events[..2] == [tick, Delete(r.user, id)];
    NoMoves(events, env, r);
    DeleteSkips(events, 1, env, r, d);
    NoShiftIff(env, r.user);
    RunKeeps(events[..2], env);
    TickKeeps(Run(events[..2], env), env.rules, env, r.user, d);
    assert !Skipped(Run(events[..2], env), r, d);
  }

  lemma RunOne(e: Event, env: Env)
    ensures Run([e], env) == Step(EMPTY, e, env)
  {
    assert [e][..0] == [];
  }

  /** For a rule that is due at all: its deleted occurrences stay deleted in every run that moves none of
      its rows if and only if the server dates the owner's midnight with the owner's day. */
  lemma DeletedStaysDeletedIff(env: Env, r: RuleRow, due: Day)
    requires DistinctIds(env.rules) && r in env.rules && DueOn(env, r, due)
    ensures (forall events, k, d :: DeletedAt(events, k, env, r, d) && Undisturbed(events, env, r) ==>
                                    !Live(Run(events, env), env, r, d))
            <==> SameDay(env, r.user)
  {
    hide DueOn, Live, DeletedAt, SameDay, Run, Undisturbed;
    if SameDay(env, r.user) {
      forall events, k, d | DeletedAt(events, k, env, r, d) && Undisturbed(events, env, r)
        ensures !Live(Run(events, env), env, r, d)
      {
        DeletedStaysDeleted(events, k, env, r, d);
      }
    } else {
      var events := DeletedComesBack(env, r, due);
      NoMoves(events, env, r);
      assert DeletedAt(events, 1, env, r, due) && Live(Run(events, env), env, r, due);
    }
  }

  /** And every such run accounts for it under the same condition, and no other. */
  lemma RunAccountsIff(env: Env, r: RuleRow, due: Day)
    requires DistinctIds(env.rules) && r in env.rules && DueOn(env, r, due)
    ensures (forall events :: Undisturbed(events, env, r) ==> Accounts(events, env, r)) <==> SameDay(env, r.user)
  {
    hide DueOn, SameDay, Run, Live, TicksOn, DeletedAt, Undisturbed;
    if SameDay(env, r.user) {
      forall events | Undisturbed(events, env, r)
        ensures Accounts(events, env, r)
      {
        RunAccounts(events, env, r);
      }
    } else {
      var events := DeletedComesBack(env, r, due);
      NoMoves(events[..2], env, r);
      assert events[0] in events[..2];
      assert Ticked(events[..2], env, r.user, due);
      assert !Accounts(events[..2], env, r);
    }
  }

  /** When every day of the owner up to `today`, and none after it, has been ticked, live and skipped
      occurrences together are the enumeration up to today, cut at the end day. */
  lemma TickedRunIsComplete(events: seq<Event>, env: Env, r: RuleRow, today: Instant)
    requires DistinctIds(env.rules) && r in env.rules && r.isActive
    requires SameDay(env, r.user) && Undisturbed(events, env, r)
    requires var zone := ZoneOf(env, r.user);
             && (forall d :: StartOfDayIn(r.rule.startDate, zone) <= d <= StartOfDayIn(today, zone) ==>
                   Ticked(events, env, r.user, d))
             && (forall d :: Ticked(events, env, r.user, d) ==> d <= StartOfDayIn(today, zone))
    ensures var s, zone := Run(events, env), ZoneOf(env, r.user);
            forall d :: Handled(s, env, r, d) <==>
              && d in Missed(r.rule, None, today, zone)
              && (r.endDate.Some? ==> d <= StartOfDayIn(r.endDate.value, zone))
  {
    RunAccounts(events, env, r);
    var s, zone := Run(events, env), ZoneOf(env, r.user);
    DaysWhereExact(Firing(r.rule, zone), StartOfDayIn(r.rule.startDate, zone), StartOfDayIn(today, zone));
    hide Run, StartOfDayIn, Handled, DaysWhere, Ticked, ZoneOf, SameDay, Apart, Undisturbed;
    NothingBefore(r.rule, zone);
    hide FiresToday;
    forall d
      ensures Handled(s, env, r, d) <==>
              && d in Missed(r.rule, None, today, zone)
              && (r.endDate.Some? ==> d <= StartOfDayIn(r.endDate.value, zone))
    {
      assert Firing(r.rule, zone)(d) == FiresToday(r.rule, zone, d);
    }
  }

  // ----- Two users of one daily rule -----

  const DAILY := RuleRow(7, 1, true, Rule(0, Daily, None, []), None, 500)

  function DailyIn(zone: Zone): Env {
    Env([DAILY], map[1 := zone], 0)
  }

  /** Noon of the user's day 10. */
  function Noon(zone: Zone): Instant {
    Midnight(10, zone) + SECONDS_PER_DAY / 2
  }

  function Row(day: Day, zone: Zone): Occurrence {
    Occurrence(1, 7, Midnight(day, zone), 500)
  }

  lemma DailyTick(s: State, zone: Zone)
    requires zone == 0 || zone == 32400
    ensures Step(s, Tick(1, Noon(zone)), DailyIn(zone)) == TickRule(s, DAILY, zone, 1, 10)
    ensures Due(DAILY, zone, 10)
  {
    assert [DAILY][..0] == [];
    assert TickRules(s, [DAILY], zone, 1, 10) == TickRule(TickRules(s, [], zone, 1, 10), DAILY, zone, 1, 10);
  }

  lemma RunOneMore(events: seq<Event>, e: Event, env: Env)
    ensures Run(events + [e], env) == Step(Run(events, env), e, env)
  {
    assert (events + [e])[..|events|] == events;
  }

  /** Nine hours east of the server the delete of the occurrence of day 10 skips day 9, and the next tick
      of day 10 inserts it again. */
  lemma NineHoursEastItComesBack()
    ensures var zone := 32400;
            var events := [Tick(1, Noon(zone)), Delete(1, 0), Tick(1, Noon(zone))];
            && DeletedAt(events, 1, DailyIn(zone), DAILY, 10)
            && Run(events, DailyIn(zone)) == State(map[1 := Row(10, zone)], {(7, 9)}, 2)
  {
    var zone := 32400;
    var env, tick, delete := DailyIn(zone), Tick(1, Noon(zone)), Delete(1, 0);
    RunOne(tick, env);
    RunOneMore([tick], delete, env);
    RunOneMore([tick, delete], tick, env);
    assert [tick] + [delete] == [tick, delete] && [tick, delete] + [tick] == [tick, delete, tick];
    assert [tick, delete, tick][..1] == [tick];
    DailyTick(EMPTY, zone);
    DailyTick(State(map[], {(7, 9)}, 1), zone);
    assert Run([tick], env) == State(map[0 := Row(10, zone)], {}, 1);
    assert Run([tick, delete], env) == State(map[], {(7, 9)}, 1);
  }

  /** With user and server in one zone, moving the occurrence of day 10 to day 11 and deleting it there
      skips day 11, and the next tick of day 10 inserts another one. */
  lemma MovedItComesBack()
    ensures var events := [Tick(1, Noon(0)), Move(1, 0, Midnight(11, 0)), Delete(1, 0), Tick(1, Noon(0))];
            && SameDay(DailyIn(0), 1) && !Undisturbed(events, DailyIn(0), DAILY)
            && Run(events, DailyIn(0)) == State(map[1 := Row(10, 0)], {(7, 11)}, 2)
  {
    var env, tick, move, delete := DailyIn(0), Tick(1, Noon(0)), Move(1, 0, Midnight(11, 0)), Delete(1, 0);
    var events := [tick, move, delete, tick];
    RunOne(tick, env);
    RunOneMore([tick], move, env);
    RunOneMore([tick, move], delete, env);
    RunOneMore([tick, move, delete], tick, env);
    assert [tick] + [move] == [tick, move] && [tick, move] + [delete] == [tick, move, delete];
    assert [tick, move, delete] + [tick] == events && events[..1] == [tick];
    DailyTick(EMPTY, 0);
    DailyTick(State(map[], {(7, 11)}, 1), 0);
    assert Run([tick], env) == State(map[0 := Row(10, 0)], {}, 1);
    assert Run([tick, move], env) == State(map[0 := Row(11, 0)], {}, 1);
    assert Run([tick, move, delete], env) == State(map[], {(7, 11)}, 1);
    assert Disturbs(Run(events[..1], env), events[1], DAILY);
  }
}
