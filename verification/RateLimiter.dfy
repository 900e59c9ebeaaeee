/** The sliding-window rate limiter keeps only recent requests; over every run it decides as if it
    kept them all. */
module RateLimiter {
  import opened Wrappers

  type Ip = string
  type Time = int

  function Filter(ts: seq<Time>, p: Time -> bool): seq<Time> {
    if ts == [] then []
    else Filter(ts[..|ts| - 1], p) + if p(ts[|ts| - 1]) then [ts[|ts| - 1]] else []
  }

  function InWindow(now: Time, window: Time): Time -> bool {
    (t: Time) => now - t < window
  }

  function Recent(ts: seq<Time>, now: Time, window: Time): seq<Time> {
    Filter(ts, InWindow(now, window))
  }

  function Stored(requests: map<Ip, seq<Time>>, ip: Ip): seq<Time> {
    if ip in requests then requests[ip] else []
  }

  // ----- One request, one sweep -----

  /** Whether a request at `now` passes. An address not in the map always does. */
  predicate Admits(requests: map<Ip, seq<Time>>, ip: Ip, now: Time, limit: int, window: Time) {
    ip !in requests || |Recent(requests[ip], now, window)| < limit
  }

  function AfterRequest(requests: map<Ip, seq<Time>>, ip: Ip, now: Time, limit: int, window: Time): map<Ip, seq<Time>> {
    if Admits(requests, ip, now, limit, window)
    then requests[ip := Recent(Stored(requests, ip), now, window) + [now]]
    else requests
  }

  function AfterSweep(requests: map<Ip, seq<Time>>, now: Time, window: Time): map<Ip, seq<Time>> {
    map ip | ip in requests && Recent(requests[ip], now, window) != [] :: Recent(requests[ip], now, window)
  }

  class Limiter {
    var requests: map<Ip, seq<Time>>
    const limit: int
    const window: Time

    constructor (limit: int, window: Time)
      ensures this.limit == limit && this.window == window && requests == map[]
    {
      this.limit, this.window, requests := limit, window, map[];
    }

    method FilterRecent(reqs: seq<Time>, now: Time) returns (valid: seq<Time>)
      ensures valid == Recent(reqs, now, window)
    {
      valid := [];
      for i := 0 to |reqs|
        invariant valid == Recent(reqs[..i], now, window)
      {
        assert reqs[..i + 1][..i] == reqs[..i];
        if now - reqs[i] < window {
          valid := valid + [reqs[i]];
        }
      }
      assert reqs[..|reqs|] == reqs;
    }

    method Handle(ip: Ip, now: Time) returns (passed: bool)
      modifies this
      ensures passed == Admits(old(requests), ip, now, limit, window)
      ensures requests == AfterRequest(old(requests), ip, now, limit, window)
    {
      if ip !in requests {
        assert Recent([], now, window) + [now] == [now];
        requests := requests[ip := [now]];
        return true;
      }
      var validRequests := FilterRecent(requests[ip], now);
      if |validRequests| >= limit {
        return false;
      }
      validRequests := validRequests + [now];
      requests := requests[ip := validRequests];
      passed := true;
    }

    method Sweep(now: Time)
      modifies this
      ensures requests == AfterSweep(old(requests), now, window)
    {
      var left := requests.Keys;
      ghost var before := requests;
      while left != {}
        invariant left <= requests.Keys <= before.Keys
        invariant forall ip :: ip in left ==> requests[ip] == before[ip]
        invariant forall ip :: ip in before && ip !in left ==>
                    if Recent(before[ip], now, window) == [] then ip !in requests
                    else ip in requests && requests[ip] == Recent(before[ip], now, window)
      {
        var ip := Pick(left);
        var valid := FilterRecent(requests[ip], now);
        if |valid| == 0 {
          requests := requests - {ip};
        } else {
          requests := requests[ip := valid];
        }
        left := left - {ip};
      }
    }
  }

  // ----- Runs, with the full history beside the compact state -----

  datatype State = State(requests: map<Ip, seq<Time>>, log: map<Ip, seq<Time>>, now: Time)

  datatype Event = Request(ip: Ip, at: Time) | Sweep(at: Time)

  function Log(s: State, ip: Ip): seq<Time> {
    Stored(s.log, ip)
  }

  function Step(s: State, e: Event, limit: int, window: Time): State {
    match e
    case Request(ip, at) =>
      State(
        AfterRequest(s.requests, ip, at, limit, window),
        if Admits(s.requests, ip, at, limit, window) then s.log[ip := Log(s, ip) + [at]] else s.log,
        at)
    case Sweep(at) => State(AfterSweep(s.requests, at, window), s.log, at)
  }

  function Run(events: seq<Event>, start: Time, limit: int, window: Time): State {
    if events == [] then State(map[], map[], start)
    else Step(Run(events[..|events| - 1], start, limit, window), events[|events| - 1], limit, window)
  }

  ghost predicate Monotone(events: seq<Event>, start: Time) {
    && (forall i :: 0 <= i < |events| ==> start <= events[i].at)
    && (forall i, j :: 0 <= i < j < |events| ==> events[i].at <= events[j].at)
  }

  // ----- Filters -----

  lemma {:induction false} FilterAgain(ts: seq<Time>, p: Time -> bool, q: Time -> bool)
    requires forall t :: q(t) ==> p(t)
    ensures Filter(Filter(ts, p), q) == Filter(ts, q)
  {
    if ts != [] {
      var n := |ts| - 1;
      FilterAgain(ts[..n], p, q);
      var kept := Filter(ts[..n], p);
      if p(ts[n]) {
        assert (kept + [ts[n]])[..|kept|] == kept;
      } else {
        assert kept + [] == kept;
      }
    }
  }

  lemma {:induction false} FilterFewer(ts: seq<Time>, p: Time -> bool, q: Time -> bool)
    requires forall t :: t in ts && q(t) ==> p(t)
    ensures |Filter(ts, q)| <= |Filter(ts, p)|
  {
    if ts != [] {
      var n := |ts| - 1;
      var t := ts[n];
      assert ts == ts[..n] + [t];
      assert q(t) ==> p(t);
      FilterFewer(ts[..n], p, q);
    }
  }

  lemma FilterOneMore(ts: seq<Time>, t: Time, p: Time -> bool)
    ensures Filter(ts + [t], p) == Filter(ts, p) + if p(t) then [t] else []
  {
    assert (ts + [t])[..|ts|] == ts;
  }

  /** What is recent later is what is recent among what is recent now. */
  lemma RecentLater(ts: seq<Time>, now: Time, later: Time, window: Time)
    requires now <= later
    ensures Recent(Recent(ts, now, window), later, window) == Recent(ts, later, window)
  {
    FilterAgain(ts, InWindow(now, window), InWindow(later, window));
  }

  // ----- The compact state stands for the full history -----

  function InInterval(a: Time, window: Time): Time -> bool {
    (t: Time) => a <= t < a + window
  }

  ghost predicate SameRecent(s: State, window: Time) {
    forall ip :: Recent(Stored(s.requests, ip), s.now, window) == Recent(Log(s, ip), s.now, window)
  }

  /** An address that is not in the map passes without a look at the limit. */
  function Cap(limit: int): int {
    Max(limit, 1)
  }

  ghost predicate Bounded(ts: seq<Time>, limit: int, window: Time) {
    forall a :: |Filter(ts, InInterval(a, window))| <= Cap(limit)
  }

  ghost predicate Inv(s: State, limit: int, window: Time) {
    && SameRecent(s, window)
    && (forall ip, t :: t in Log(s, ip) ==> t <= s.now)
    && (forall ip :: Bounded(Log(s, ip), limit, window))
  }

  /** An admitted request is one of at most `Cap(limit)` in every interval it lies in. */
  lemma AdmittedKeepsBound(ts: seq<Time>, at: Time, limit: int, window: Time)
    requires Bounded(ts, limit, window) && |Recent(ts, at, window)| < Cap(limit)
    ensures Bounded(ts + [at], limit, window)
  {
    forall a
      ensures |Filter(ts + [at], InInterval(a, window))| <= Cap(limit)
    {
      FilterOneMore(ts, at, InInterval(a, window));
      if InInterval(a, window)(at) {
        FilterFewer(ts, InWindow(at, window), InInterval(a, window));
      }
    }
  }

  lemma SameRecentLater(s: State, ip: Ip, at: Time, window: Time)
    requires SameRecent(s, window) && s.now <= at
    ensures Recent(Stored(s.requests, ip), at, window) == Recent(Log(s, ip), at, window)
  {
    RecentLater(Stored(s.requests, ip), s.now, at, window);
    RecentLater(Log(s, ip), s.now, at, window);
  }

  /** Whoever is admitted has room in the full history, and from a limit of one on nobody else is
      rejected. */
  lemma DecisionFromHistory(s: State, ip: Ip, at: Time, limit: int, window: Time)
    requires SameRecent(s, window) && s.now <= at
    ensures Admits(s.requests, ip, at, limit, window) ==> |Recent(Log(s, ip), at, window)| < Cap(limit)
    ensures limit >= 1 ==> (Admits(s.requests, ip, at, limit, window) <==> |Recent(Log(s, ip), at, window)| < limit)
    ensures limit < 1 ==> (Admits(s.requests, ip, at, limit, window) <==> ip !in s.requests)
  {
    SameRecentLater(s, ip, at, window);
  }

  lemma StepKeeps(s: State, e: Event, limit: int, window: Time)
    requires Inv(s, limit, window) && s.now <= e.at
    ensures Inv(Step(s, e, limit, window), limit, window)
  {
    var s' := Step(s, e, limit, window);
    assert Recent([], e.at, window) == [];
    hide Filter, Bounded;
    forall ip, t | t in Log(s', ip)
      ensures t <= s'.now
    {
      assert t in Log(s, ip) ==> t <= s.now;
    }
    forall ip
      ensures Recent(Stored(s'.requests, ip), s'.now, window) == Recent(Log(s', ip), s'.now, window)
      ensures Bounded(Log(s', ip), limit, window)
    {
      SameRecentLater(s, ip, e.at, window);
      RecentLater(Stored(s.requests, ip), e.at, e.at, window);
      if e.Request? && ip == e.ip && Admits(s.requests, ip, e.at, limit, window) {
        DecisionFromHistory(s, ip, e.at, limit, window);
        AdmittedKeepsBound(Log(s, ip), e.at, limit, window);
        FilterOneMore(Log(s, ip), e.at, InWindow(e.at, window));
        FilterOneMore(Recent(Stored(s.requests, ip), e.at, window), e.at, InWindow(e.at, window));
      }
    }
  }

  lemma {:induction false} RunInv(events: seq<Event>, start: Time, limit: int, window: Time)
    requires Monotone(events, start)
    ensures Inv(Run(events, start, limit, window), limit, window)
    ensures Run(events, start, limit, window).now == if events == [] then start else events[|events| - 1].at
  {
    if events != [] {
      var before, e := events[..|events| - 1], events[|events| - 1];
      RunInv(before, start, limit, window);
      hide Inv;
      StepKeeps(Run(before, start, limit, window), e, limit, window);
    }
  }

  /** Over every run, for every limit, with sweeps anywhere: no half-open interval as long as the window
      holds more admitted requests of one address than `limit`, or than one if `limit` is less. */
  lemma NeverMoreThanLimit(events: seq<Event>, start: Time, limit: int, window: Time, ip: Ip, a: Time)
    requires Monotone(events, start)
    ensures |Filter(Log(Run(events, start, limit, window), ip), InInterval(a, window))| <= Max(limit, 1)
  {
    RunInv(events, start, limit, window);
    assert Bounded(Log(Run(events, start, limit, window), ip), limit, window);
  }

  /** The next request is rejected exactly when `limit` admitted ones lie inside its window. */
  lemma RejectedOnlyAtLimit(events: seq<Event>, start: Time, limit: int, window: Time, ip: Ip, at: Time)
    requires limit >= 1 && Monotone(events, start)
    requires start <= at && forall i :: 0 <= i < |events| ==> events[i].at <= at
    ensures var s := Run(events, start, limit, window);
            !Admits(s.requests, ip, at, limit, window) <==> |Recent(Log(s, ip), at, window)| == limit
  {
    var s := Run(events, start, limit, window);
    RunInv(events, start, limit, window);
    DecisionFromHistory(s, ip, at, limit, window);
    FilterFewer(Log(s, ip), InInterval(at - window + 1, window), InWindow(at, window));
    assert Bounded(Log(s, ip), limit, window);
    assert |Filter(Log(s, ip), InInterval(at - window + 1, window))| <= limit;
  }

  /** A first request passes whatever the limit, so with a limit below one the bound is one. */
  lemma FirstRequestPasses(start: Time, limit: int, window: Time, ip: Ip)
    requires window > 0
    ensures |Filter(Log(Run([Request(ip, start)], start, limit, window), ip), InInterval(start, window))| == 1
  {
    var events := [Request(ip, start)];
    assert events[..0] == [];
    assert Log(Run(events, start, limit, window), ip) == [start];
    FilterOneMore([], start, InInterval(start, window));
    assert [] + [start] == [start];
  }

  /** A sweep keeps exactly the addresses with an admitted request inside the window, and their requests
      inside it. */
  lemma SweepForgets(events: seq<Event>, start: Time, limit: int, window: Time, at: Time, ip: Ip)
    requires Monotone(events, start)
    requires start <= at && forall i :: 0 <= i < |events| ==> events[i].at <= at
    ensures var s := Run(events, start, limit, window);
            var swept := Step(s, Sweep(at), limit, window).requests;
            && (ip in swept <==> exists t :: t in Log(s, ip) && at - t < window)
            && (ip in swept ==> swept[ip] == Recent(Log(s, ip), at, window))
  {
    var s := Run(events, start, limit, window);
    RunInv(events, start, limit, window);
    SameRecentLater(s, ip, at, window);
    FilterIsEmptyIff(Log(s, ip), InWindow(at, window));
  }

  lemma {:induction false} FilterIsEmptyIff(ts: seq<Time>, p: Time -> bool)
    ensures Filter(ts, p) == [] <==> forall t :: t in ts ==> !p(t)
  {
    if ts != [] {
      var n := |ts| - 1;
      assert forall t :: t in ts <==> t in ts[..n] || t == ts[n] by {
        assert ts == ts[..n] + [ts[n]];
      }
      FilterIsEmptyIff(ts[..n], p);
    }
  }
}
