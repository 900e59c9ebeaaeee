/** The revocation cache in front of users.tokens_invalidated_after: the cache itself, and every
    interleaving of its readers, its writers, expiry and the clock. */
module JwtCache {
  import opened Wrappers

  type User = int
  type Time = int

  /** The column: None is NULL, never invalidated. */
  type Stamp = Option<Time>

  datatype Entry = Entry(value: Stamp, expiresAt: Time)

  function WithEntry(entries: map<User, Entry>, u: User, value: Stamp, now: Time, ttl: Time): map<User, Entry> {
    entries[u := Entry(value, now + ttl)]
  }

  /** A fresh hit. */
  predicate Hit(entries: map<User, Entry>, u: User, now: Time) {
    u in entries && now <= entries[u].expiresAt
  }

  class JWTRevocationCache {
    var entries: map<User, Entry>
    const ttl: Time

    constructor (ttl: Time)
      ensures this.ttl == ttl && entries == map[]
    {
      this.ttl, entries := ttl, map[];
    }

    method Get(u: User, now: Time) returns (value: Stamp, ok: bool)
      modifies this
      ensures ok == Hit(old(entries), u, now)
      ensures ok ==> value == old(entries)[u].value && entries == old(entries)
      ensures !ok ==> value == None && entries == old(entries) - {u}
    {
      if u !in entries {
        return None, false;
      }
      var e := entries[u];
      if now > e.expiresAt {
        entries := entries - {u};
        return None, false;
      }
      return e.value, true;
    }

    method Set(u: User, value: Stamp, now: Time)
      modifies this
      ensures entries == WithEntry(old(entries), u, value, now, ttl)
    {
      entries := entries[u := Entry(value, now + ttl)];
    }

    method Invalidate(u: User)
      modifies this
      ensures entries == old(entries) - {u}
    {
      entries := entries - {u};
    }

    /** The revocation part of JWTAuth: the cache, else the database, which fills the cache. */
    method Authorise(u: User, issuedAt: Stamp, users: map<User, Stamp>, now: Time) returns (ok: bool)
      modifies this
      ensures ok == if Hit(old(entries), u, now) then Accepts(issuedAt, old(entries)[u].value)
                    else u in users && Accepts(issuedAt, users[u])
      ensures entries == if Hit(old(entries), u, now) then old(entries)
                         else if u in users then WithEntry(old(entries), u, users[u], now, ttl)
                         else old(entries) - {u}
    {
      var stamp, fromCache := Get(u, now);
      if !fromCache {
        if u !in users {
          return false;
        }
        stamp := users[u];
        Set(u, stamp, now);
      }
      ok := Accepts(issuedAt, stamp);
    }
  }

  /** A token passes when it was issued after the last invalidation. */
  predicate Accepts(issuedAt: Stamp, stamp: Stamp) {
    stamp.Some? ==> issuedAt.Some? && issuedAt.value > stamp.value
  }

  // ----- All interleavings -----

  /** A reader between its database read and its Set. */
  datatype Reading = Reading(user: User, value: Stamp, version: nat, readAt: Time)

  /** Where a cache entry came from. */
  datatype Origin = Origin(version: nat, setAfter: nat)

  /** `versions` counts the updates of a user's column, `dropped` the invalidations done; both, and
      `origins`, only record the past. `expiring` holds readers that found an expired entry and are
      about to drop whatever is there. */
  datatype System = System(
    now: Time,
    users: map<User, Stamp>,
    entries: map<User, Entry>,
    readers: map<nat, Reading>,
    pending: multiset<User>,
    expiring: multiset<User>,
    versions: map<User, nat>,
    dropped: map<User, nat>,
    origins: map<User, Origin>)

  datatype Event =
    | Advance(elapsed: nat)
    | Read(reader: nat, user: User)
    | Put(reader: nat)
    | Update(user: User, value: Stamp)
    | Invalidate(user: User)
    | SeeExpired(user: User)
    | DropExpired(user: User)

  /** `delta` bounds the time from a database read to its Set. */
  predicate Enabled(s: System, e: Event, delta: Time) {
    match e
    case Advance(_) => true
    case Read(r, u) => r !in s.readers && u in s.users
    case Put(r) => r in s.readers && s.now <= s.readers[r].readAt + delta
    case Update(u, _) => u in s.users
    case Invalidate(u) => u in s.pending
    case SeeExpired(u) => u in s.entries && !Hit(s.entries, u, s.now)
    case DropExpired(u) => u in s.expiring
  }

  function Count(m: map<User, nat>, u: User): nat {
    if u in m then m[u] else 0
  }

  function Next(s: System, e: Event, ttl: Time, delta: Time): System
    requires Enabled(s, e, delta)
  {
    match e
    case Advance(d) => s.(now := s.now + d)
    case Read(r, u) => s.(readers := s.readers[r := Reading(u, s.users[u], Count(s.versions, u), s.now)])
    case Put(r) =>
      var reading := s.readers[r];
      s.(entries := WithEntry(s.entries, reading.user, reading.value, s.now, ttl),
         origins := s.origins[reading.user := Origin(reading.version, Count(s.dropped, reading.user))],
         readers := s.readers - {r})
    case Update(u, v) =>
      s.(users := s.users[u := v],
         versions := s.versions[u := Count(s.versions, u) + 1],
         pending := s.pending + multiset{u})
    case Invalidate(u) =>
      s.(entries := s.entries - {u},
         pending := s.pending - multiset{u},
         dropped := s.dropped[u := Count(s.dropped, u) + 1])
    case SeeExpired(u) => s.(expiring := s.expiring + multiset{u})
    case DropExpired(u) => s.(entries := s.entries - {u}, expiring := s.expiring - multiset{u})
  }

  ghost predicate Started(s: System) {
    s.entries == map[] && s.readers == map[] && s.pending == multiset{} && s.expiring == multiset{}
    && s.versions == map[] && s.dropped == map[] && s.origins == map[]
  }

  ghost predicate Run(states: seq<System>, events: seq<Event>, ttl: Time, delta: Time) {
    && |states| == |events| + 1 && Started(states[0])
    && forall i :: 0 <= i < |events| ==>
         Enabled(states[i], events[i], delta) && states[i + 1] == Next(states[i], events[i], ttl, delta)
  }

  // ----- Staleness is bounded -----

  /** Before state `n`, `u`'s column held `value` at a time not before `since`. */
  ghost predicate WasCurrent(states: seq<System>, n: nat, u: User, value: Stamp, since: Time)
    requires n < |states|
  {
    exists i :: 0 <= i <= n && u in states[i].users && states[i].users[u] == value && states[i].now >= since
  }

  ghost predicate Recent(states: seq<System>, n: nat, ttl: Time, delta: Time)
    requires n < |states|
  {
    var s := states[n];
    && (forall r :: r in s.readers ==>
        WasCurrent(states, n, s.readers[r].user, s.readers[r].value, s.readers[r].readAt))
    && (forall u :: u in s.entries ==>
        WasCurrent(states, n, u, s.entries[u].value, s.entries[u].expiresAt - ttl - delta))
  }

  lemma WasCurrentLater(states: seq<System>, n: nat, u: User, value: Stamp, since: Time, earlier: Time)
    requires n + 1 < |states| && WasCurrent(states, n, u, value, since) && earlier <= since
    ensures WasCurrent(states, n + 1, u, value, earlier)
  {
    var i :| 0 <= i <= n && u in states[i].users && states[i].users[u] == value && states[i].now >= since;
    assert states[i].now >= earlier;
  }

  lemma {:induction false} AlwaysRecent(states: seq<System>, events: seq<Event>, ttl: Time, delta: Time, n: nat)
    requires Run(states, events, ttl, delta) && n < |states|
    ensures Recent(states, n, ttl, delta)
  {
    if n > 0 {
      AlwaysRecent(states, events, ttl, delta, n - 1);
      var s, e, s' := states[n - 1], events[n - 1], states[n];
      assert Enabled(s, e, delta) && states[n - 1 + 1] == Next(s, e, ttl, delta);
      forall r | r in s'.readers
        ensures WasCurrent(states, n, s'.readers[r].user, s'.readers[r].value, s'.readers[r].readAt)
      {
        if r in s.readers && s.readers[r] == s'.readers[r] {
          WasCurrentLater(states, n - 1, s.readers[r].user, s.readers[r].value, s.readers[r].readAt,
              s.readers[r].readAt);
        } else {
          assert s.users[e.user] == s'.readers[r].value && s'.users == s.users && s'.now == s.now;
        }
      }
      forall u | u in s'.entries
        ensures WasCurrent(states, n, u, s'.entries[u].value, s'.entries[u].expiresAt - ttl - delta)
      {
        if u in s.entries && s.entries[u] == s'.entries[u] {
          var since := s.entries[u].expiresAt - ttl - delta;
          WasCurrentLater(states, n - 1, u, s.entries[u].value, since, since);
        } else {
          var reading := s.readers[e.reader];
          WasCurrentLater(states, n - 1, u, reading.value, reading.readAt, s.now - delta);
        }
      }
    }
  }

  /** Any hit returns a value that was current within the last ttl + delta. */
  lemma HitsAreRecent(states: seq<System>, events: seq<Event>, ttl: Time, delta: Time, n: nat, u: User)
    requires Run(states, events, ttl, delta) && n < |states|
    requires Hit(states[n].entries, u, states[n].now)
    ensures WasCurrent(states, n, u, states[n].entries[u].value, states[n].now - ttl - delta)
  {
    AlwaysRecent(states, events, ttl, delta, n);
    var since := states[n].entries[u].expiresAt - ttl - delta;
    var i :| 0 <= i <= n && u in states[i].users && states[i].users[u] == states[n].entries[u].value
        && states[i].now >= since;
    assert states[i].now >= states[n].now - ttl - delta;
  }

  lemma ClockStep(s: System, e: Event, ttl: Time, delta: Time)
    requires Enabled(s, e, delta)
    ensures s.now <= Next(s, e, ttl, delta).now
  {
  }

  lemma RunStep(states: seq<System>, events: seq<Event>, ttl: Time, delta: Time, i: nat)
    requires Run(states, events, ttl, delta) && i < |events|
    ensures Enabled(states[i], events[i], delta) && states[i + 1] == Next(states[i], events[i], ttl, delta)
  {
  }

  lemma {:induction false} ClockIsMonotone(
    states: seq<System>, events: seq<Event>, ttl: Time, delta: Time, i: nat, n: nat)
    requires Run(states, events, ttl, delta) && i <= n < |states|
    ensures states[i].now <= states[n].now
  {
    if i < n {
      ClockIsMonotone(states, events, ttl, delta, i, n - 1);
      RunStep(states, events, ttl, delta, n - 1);
      hide Run, Next, Enabled;
      ClockStep(states[n - 1], events[n - 1], ttl, delta);
    }
  }

  /** A revocation that is not taken back is in force everywhere once ttl + delta have passed. */
  lemma RevocationTakesEffect(
    states: seq<System>, events: seq<Event>, ttl: Time, delta: Time, j: nat, n: nat, u: User, issuedAt: Time)
    requires Run(states, events, ttl, delta) && j <= n < |states|
    requires forall i :: j <= i <= n && u in states[i].users ==> !Accepts(Some(issuedAt), states[i].users[u])
    requires states[n].now > states[j].now + ttl + delta
    requires Hit(states[n].entries, u, states[n].now)
    ensures !Accepts(Some(issuedAt), states[n].entries[u].value)
  {
    HitsAreRecent(states, events, ttl, delta, n, u);
    var i :| 0 <= i <= n && u in states[i].users && states[i].users[u] == states[n].entries[u].value
      && states[i].now >= states[n].now - ttl - delta;
    if i < j {
      ClockIsMonotone(states, events, ttl, delta, i, j);
    }
  }

  /** And a token issued after everything the column ever held passes on every hit; before any logout the
      column is NULL, and every token does. */
  lemma UnrevokedTokenPasses(
    states: seq<System>, events: seq<Event>, ttl: Time, delta: Time, n: nat, u: User, issuedAt: Stamp)
    requires Run(states, events, ttl, delta) && n < |states|
    requires forall i :: 0 <= i <= n && u in states[i].users && states[i].users[u].Some? ==>
               issuedAt.Some? && states[i].users[u].value < issuedAt.value
    requires Hit(states[n].entries, u, states[n].now)
    ensures Accepts(issuedAt, states[n].entries[u].value)
  {
    HitsAreRecent(states, events, ttl, delta, n, u);
  }

  /** What is set is hit up to and including `ttl` later, and not after; other users' entries stay. */
  lemma SetThenHit(entries: map<User, Entry>, u: User, value: Stamp, at: Time, ttl: Time, v: User, now: Time)
    ensures var entries' := WithEntry(entries, u, value, at, ttl);
            && (Hit(entries', v, now) <==> if v == u then now - at <= ttl else Hit(entries, v, now))
            && entries'[u].value == value
            && (v != u && v in entries ==> entries'[v] == entries[v])
  {
  }

  // ----- Where staleness comes from -----

  /** Each update leaves one invalidation, done or pending. An entry that differs from its column
      has one still pending, or was put there after the last one from a read that missed the last
      update. */
  ghost predicate Traced(s: System) {
    && (forall u :: Count(s.versions, u) == Count(s.dropped, u) + s.pending[u])
    && (forall r :: r in s.readers ==> ReadingOk(s, s.readers[r]))
    && (forall u :: u in s.entries ==> EntryOk(s, u))
  }

  ghost predicate ReadingOk(s: System, reading: Reading) {
    && reading.user in s.users
    && reading.version <= Count(s.versions, reading.user)
    && (reading.version == Count(s.versions, reading.user) ==> reading.value == s.users[reading.user])
  }

  ghost predicate EntryOk(s: System, u: User)
    requires u in s.entries
  {
    && u in s.users && u in s.origins
    && s.origins[u].version <= Count(s.versions, u)
    && (s.origins[u].version == Count(s.versions, u) ==> s.entries[u].value == s.users[u])
    && s.origins[u].setAfter == Count(s.dropped, u)
  }

  lemma ReadersStep(s: System, e: Event, ttl: Time, delta: Time)
    requires Traced(s) && Enabled(s, e, delta)
    ensures forall r :: r in Next(s, e, ttl, delta).readers ==>
        ReadingOk(Next(s, e, ttl, delta), Next(s, e, ttl, delta).readers[r])
  {
    var s' := Next(s, e, ttl, delta);
    forall r | r in s'.readers
      ensures ReadingOk(s', s'.readers[r])
    {
      assert r in s.readers ==> ReadingOk(s, s.readers[r]);
    }
  }

  lemma EntriesStep(s: System, e: Event, ttl: Time, delta: Time)
    requires Traced(s) && Enabled(s, e, delta)
    ensures forall u :: u in Next(s, e, ttl, delta).entries ==> EntryOk(Next(s, e, ttl, delta), u)
  {
    var s' := Next(s, e, ttl, delta);
    forall u | u in s'.entries
      ensures EntryOk(s', u)
    {
      assert u in s.entries ==> EntryOk(s, u);
      if e.Put? {
        assert ReadingOk(s, s.readers[e.reader]);
      }
    }
  }

  lemma TracedStep(s: System, e: Event, ttl: Time, delta: Time)
    requires Traced(s) && Enabled(s, e, delta)
    ensures Traced(Next(s, e, ttl, delta))
  {
    ReadersStep(s, e, ttl, delta);
    EntriesStep(s, e, ttl, delta);
    hide ReadingOk, EntryOk;
  }

  lemma {:induction false} AlwaysTraced(states: seq<System>, events: seq<Event>, ttl: Time, delta: Time, n: nat)
    requires Run(states, events, ttl, delta) && n < |states|
    ensures Traced(states[n])
  {
    if n > 0 {
      AlwaysTraced(states, events, ttl, delta, n - 1);
      assert Enabled(states[n - 1], events[n - 1], delta)
          && states[n - 1 + 1] == Next(states[n - 1], events[n - 1], ttl, delta);
      hide Traced, Next, Enabled;
      TracedStep(states[n - 1], events[n - 1], ttl, delta);
    }
  }

  /** A stale entry with no invalidation pending was read before the last update and put in after
      every invalidation: only a reader that straddles an update and its invalidation makes one. */
  lemma StaleEntriesAreExplained(states: seq<System>, events: seq<Event>, ttl: Time, delta: Time, n: nat, u: User)
    requires Run(states, events, ttl, delta) && n < |states|
    requires u in states[n].entries && u in states[n].users && states[n].entries[u].value != states[n].users[u]
    ensures var s := states[n];
            || u in s.pending
            || (u in s.origins && s.origins[u].version < Count(s.versions, u) == s.origins[u].setAfter)
  {
    AlwaysTraced(states, events, ttl, delta, n);
  }

  /** Read, update, invalidate, put: the reader straddles the update and its invalidation. */
  lemma Straddle(u: User, before: Stamp, after: Stamp, ttl: Time, delta: Time)
    returns (s0: System, s1: System, s2: System, s3: System, s4: System)
    requires before != after && delta >= 0 && ttl >= 0
    ensures Started(s0)
    ensures Enabled(s0, Read(0, u), delta) && s1 == Next(s0, Read(0, u), ttl, delta)
    ensures Enabled(s1, Update(u, after), delta) && s2 == Next(s1, Update(u, after), ttl, delta)
    ensures Enabled(s2, Invalidate(u), delta) && s3 == Next(s2, Invalidate(u), ttl, delta)
    ensures Enabled(s3, Put(0), delta) && s4 == Next(s3, Put(0), ttl, delta)
    ensures Hit(s4.entries, u, s4.now) && u !in s4.pending && u in s4.users && s4.entries[u].value != s4.users[u]
  {
    s0 := System(0, map[u := before], map[], map[], multiset{}, multiset{}, map[], map[], map[]);
    s1 := Next(s0, Read(0, u), ttl, delta);
    s2 := Next(s1, Update(u, after), ttl, delta);
    s3 := Next(s2, Invalidate(u), ttl, delta);
    s4 := Next(s3, Put(0), ttl, delta);
  }

  /** Such a reader does make one: the entry outlives both. */
  lemma StraddlingReaderLeavesAStaleEntry(u: User, before: Stamp, after: Stamp, ttl: Time, delta: Time)
    requires before != after && delta >= 0 && ttl >= 0
    ensures exists states: seq<System>, events: seq<Event> ::
              && Run(states, events, ttl, delta) && |events| == 4
              && var s := states[4];
                 Hit(s.entries, u, s.now) && u !in s.pending && u in s.users && s.entries[u].value != s.users[u]
  {
    hide Enabled, Next, Started, Hit;
    var s0, s1, s2, s3, s4 := Straddle(u, before, after, ttl, delta);
    assert Run([s0, s1, s2, s3, s4], [Read(0, u), Update(u, after), Invalidate(u), Put(0)], ttl, delta);
  }

  // ----- Logging out and in again -----

  /** Logging out stamps the column with the time; logging in, with `offset` less (one second), so
      that the token just issued passes. */
  ghost predicate StampedUpdates(states: seq<System>, events: seq<Event>, offset: Time)
    requires |states| == |events| + 1
  {
    forall i :: 0 <= i < |events| && events[i].Update? ==>
      events[i].value == Some(states[i].now) || events[i].value == Some(states[i].now - offset)
  }

  /** The column is stamped, and not before `floor`. */
  predicate StampedSince(s: System, u: User, floor: Time) {
    u in s.users && s.users[u].Some? && s.users[u].value >= floor
  }

  lemma StampStep(s: System, e: Event, ttl: Time, delta: Time, u: User, floor: Time)
    requires Enabled(s, e, delta)
    requires e.Update? ==> e.value.Some? && e.value.value >= floor
    requires StampedSince(s, u, floor) || (e.Update? && e.user == u)
    ensures StampedSince(Next(s, e, ttl, delta), u, floor)
  {
  }

  lemma StampedNotBefore(states: seq<System>, events: seq<Event>, offset: Time, i: nat, floor: Time)
    requires |states| == |events| + 1 && i < |events| && StampedUpdates(states, events, offset) && offset >= 0
    requires floor <= states[i].now - offset
    ensures events[i].Update? ==> events[i].value.Some? && events[i].value.value >= floor
  {
  }

  /** A login after a logout may move the column back, but never more than `offset` before the
      logout. */
  lemma {:induction false} StampsStand(
    states: seq<System>, events: seq<Event>, ttl: Time, delta: Time, offset: Time, j: nat, n: nat, u: User)
    requires Run(states, events, ttl, delta) && StampedUpdates(states, events, offset) && offset >= 0
    requires j <= n < |events| && events[j] == Update(u, Some(states[j].now))
    ensures StampedSince(states[n + 1], u, states[j].now - offset)
  {
    hide Next, Enabled, StampedSince;
    if j < n {
      StampsStand(states, events, ttl, delta, offset, j, n - 1, u);
    }
    RunStep(states, events, ttl, delta, n);
    ClockIsMonotone(states, events, ttl, delta, j, n);
    StampedNotBefore(states, events, offset, n, states[j].now - offset);
    hide Run, StampedUpdates;
    StampStep(states[n], events[n], ttl, delta, u, states[j].now - offset);
  }

  /** A token that is at least `offset` old at the logout stays revoked: once ttl + delta have passed,
      whatever logins follow, no hit accepts it. */
  lemma LogoutTakesEffect(
    states: seq<System>, events: seq<Event>, ttl: Time, delta: Time, offset: Time, j: nat, n: nat, u: User,
    issuedAt: Time)
    requires Run(states, events, ttl, delta) && StampedUpdates(states, events, offset) && offset >= 0
    requires j < n < |states| && events[j] == Update(u, Some(states[j].now))
    requires issuedAt <= states[j].now - offset
    requires states[n].now > states[j + 1].now + ttl + delta
    requires Hit(states[n].entries, u, states[n].now)
    ensures !Accepts(Some(issuedAt), states[n].entries[u].value)
  {
    forall i | j + 1 <= i <= n && u in states[i].users
      ensures !Accepts(Some(issuedAt), states[i].users[u])
    {
      StampsStand(states, events, ttl, delta, offset, j, i - 1, u);
    }
    RevocationTakesEffect(states, events, ttl, delta, j + 1, n, u, issuedAt);
  }

  function OutAndInEvents(u: User, at: Time, offset: Time): seq<Event> {
    [Update(u, Some(at)), Invalidate(u), Update(u, Some(at - offset)), Invalidate(u), Read(0, u), Put(0)]
  }

  /** Logout, login, and a reader after both. */
  lemma OutAndIn(u: User, at: Time, offset: Time, ttl: Time, delta: Time) returns (states: seq<System>)
    requires delta >= 0 && ttl >= 0
    ensures |states| == 7 && Started(states[0])
    ensures var events := OutAndInEvents(u, at, offset);
            forall i :: 0 <= i < 6 ==>
              Enabled(states[i], events[i], delta) && states[i + 1] == Next(states[i], events[i], ttl, delta)
    ensures states[0].now == states[2].now == at
    ensures u in states[1].users && states[1].users[u] == Some(at)
    ensures Hit(states[6].entries, u, states[6].now) && states[6].entries[u].value == Some(at - offset)
  {
    var events := OutAndInEvents(u, at, offset);
    var s0 := System(at, map[u := None], map[], map[], multiset{}, multiset{}, map[], map[], map[]);
    var s1 := Next(s0, events[0], ttl, delta);
    var s2 := Next(s1, events[1], ttl, delta);
    var s3 := Next(s2, events[2], ttl, delta);
    var s4 := Next(s3, events[3], ttl, delta);
    var s5 := Next(s4, events[4], ttl, delta);
    states := [s0, s1, s2, s3, s4, s5, Next(s5, events[5], ttl, delta)];
  }

  /** Any younger token does not: a logout at `at` revokes it, and a login at once takes that back. */
  lemma LoginRevivesToken(u: User, issuedAt: Time, at: Time, offset: Time, ttl: Time, delta: Time)
    requires at - offset < issuedAt <= at && delta >= 0 && ttl >= 0
    ensures exists states: seq<System>, events: seq<Event> ::
              && Run(states, events, ttl, delta) && StampedUpdates(states, events, offset) && |events| == 6
              && states[0].now == at && events[0] == Update(u, Some(at))
              && u in states[1].users && !Accepts(Some(issuedAt), states[1].users[u])
              && Hit(states[6].entries, u, states[6].now) && Accepts(Some(issuedAt), states[6].entries[u].value)
  {
    hide Enabled, Next, Started, Hit;
    var states := OutAndIn(u, at, offset, ttl, delta);
    var events := OutAndInEvents(u, at, offset);
    assert Run(states, events, ttl, delta);
    assert StampedUpdates(states, events, offset);
  }
}
