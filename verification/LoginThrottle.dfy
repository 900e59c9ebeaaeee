/** The per-account lockout of the login handler. */
module LoginThrottle {
  import opened Wrappers

  type Time = int

  const MAX_FAILED_ATTEMPTS := 5

  /** 15 minutes, in seconds. */
  const LOCKOUT: Time := 900

  datatype Throttle = Throttle(failedAttempts: nat, lockedUntil: Option<Time>)

  datatype Outcome = LockedOut | Mismatch | Success

  function Answer(t: Throttle, matches: bool, now: Time): Outcome {
    if t.lockedUntil.Some? && t.lockedUntil.value > now then LockedOut
    else if matches then Success
    else Mismatch
  }

  function After(t: Throttle, matches: bool, now: Time): Throttle {
    match Answer(t, matches, now)
    case LockedOut => t
    case Success => Throttle(0, None)
    case Mismatch =>
      var attempts := (if t.lockedUntil.Some? then 0 else t.failedAttempts) + 1;
      Throttle(attempts, if attempts >= MAX_FAILED_ATTEMPTS then Some(now + LOCKOUT) else None)
  }

  class Account {
    var failedAttempts: nat
    var lockedUntil: Option<Time>

    constructor ()
      ensures State() == Throttle(0, None)
    {
      failedAttempts, lockedUntil := 0, None;
    }

    function State(): Throttle
      reads this
    {
      Throttle(failedAttempts, lockedUntil)
    }

    method Login(matches: bool, now: Time) returns (outcome: Outcome)
      modifies this
      ensures outcome == Answer(old(State()), matches, now)
      ensures State() == After(old(State()), matches, now)
    {
      if lockedUntil.Some? && lockedUntil.value > now {
        return LockedOut;
      }
      if lockedUntil.Some? {
        failedAttempts := 0;
        lockedUntil := None;
      }
      if !matches {
        var newAttempts := failedAttempts + 1;
        failedAttempts := newAttempts;
        if newAttempts >= MAX_FAILED_ATTEMPTS {
          lockedUntil := Some(now + LOCKOUT);
        }
        return Mismatch;
      }
      if failedAttempts > 0 || lockedUntil.Some? {
        failedAttempts := 0;
        lockedUntil := None;
      }
      outcome := Success;
    }
  }

  datatype Attempt = Attempt(matches: bool, at: Time)

  function Run(attempts: seq<Attempt>): Throttle {
    if attempts == [] then Throttle(0, None)
    else var a := attempts[|attempts| - 1]; After(Run(attempts[..|attempts| - 1]), a.matches, a.at)
  }

  /** When passwords were compared and found wrong. */
  function Mismatches(attempts: seq<Attempt>): seq<Time> {
    if attempts == [] then []
    else
      var before, a := attempts[..|attempts| - 1], attempts[|attempts| - 1];
      Mismatches(before) + if Answer(Run(before), a.matches, a.at) == Mismatch then [a.at] else []
  }

  predicate Succeeds(attempts: seq<Attempt>) {
    exists k :: 0 <= k < |attempts| && Answer(Run(attempts[..k]), attempts[k].matches, attempts[k].at) == Success
  }

  ghost predicate Monotone(attempts: seq<Attempt>) {
    forall i, j :: 0 <= i < j < |attempts| ==> attempts[i].at <= attempts[j].at
  }

  /** Mismatches come in order, and the sixth waits for the lock of the fifth to run out. */
  ghost predicate Spacing(ts: seq<Time>) {
    && (forall i, j :: 0 <= i < j < |ts| ==> ts[i] <= ts[j])
    && (forall i :: 0 <= i && i + 1 < |ts| && i % MAX_FAILED_ATTEMPTS == MAX_FAILED_ATTEMPTS - 1 ==>
          ts[i] + LOCKOUT <= ts[i + 1])
  }

  /** The counters follow from the mismatches: every fifth one locks. */
  predicate Counts(t: Throttle, ts: seq<Time>) {
    if ts == [] then t == Throttle(0, None)
    else if |ts| % MAX_FAILED_ATTEMPTS == 0 then t == Throttle(MAX_FAILED_ATTEMPTS, Some(ts[|ts| - 1] + LOCKOUT))
    else t == Throttle(|ts| % MAX_FAILED_ATTEMPTS, None)
  }

  ghost predicate Spaced(t: Throttle, ts: seq<Time>) {
    Spacing(ts) && Counts(t, ts)
  }

  lemma CountsStep(t: Throttle, ts: seq<Time>, matches: bool, at: Time)
    requires Counts(t, ts) && Answer(t, matches, at) == Mismatch
    ensures Counts(After(t, matches, at), ts + [at])
    ensures ts != [] && |ts| % MAX_FAILED_ATTEMPTS == 0 ==> ts[|ts| - 1] + LOCKOUT <= at
  {
    var n := |ts|;
    assert (n + 1) % 5 == if n % 5 == 4 then 0 else n % 5 + 1;
  }

  lemma SpacingStep(ts: seq<Time>, at: Time)
    requires Spacing(ts) && forall i :: 0 <= i < |ts| ==> ts[i] <= at
    requires ts != [] && |ts| % MAX_FAILED_ATTEMPTS == 0 ==> ts[|ts| - 1] + LOCKOUT <= at
    ensures Spacing(ts + [at])
  {
    var n, ts' := |ts|, ts + [at];
    forall i | 0 <= i && i + 1 < |ts'| && i % MAX_FAILED_ATTEMPTS == MAX_FAILED_ATTEMPTS - 1
      ensures ts'[i] + LOCKOUT <= ts'[i + 1]
    {
      if i + 1 == n {
        FifthIsFull(n);
      }
    }
  }

  lemma FifthIsFull(n: nat)
    requires n > 0 && (n - 1) % MAX_FAILED_ATTEMPTS == MAX_FAILED_ATTEMPTS - 1
    ensures n % MAX_FAILED_ATTEMPTS == 0
  {
  }

  lemma SpacedStep(t: Throttle, ts: seq<Time>, matches: bool, at: Time)
    requires Spaced(t, ts) && Answer(t, matches, at) != Success
    requires forall i :: 0 <= i < |ts| ==> ts[i] <= at
    ensures Spaced(After(t, matches, at), ts + if Answer(t, matches, at) == Mismatch then [at] else [])
  {
    hide Spacing, Counts;
    if Answer(t, matches, at) == Mismatch {
      CountsStep(t, ts, matches, at);
      SpacingStep(ts, at);
    } else {
      assert ts + [] == ts;
    }
  }

  lemma NoEarlierSuccess(attempts: seq<Attempt>)
    requires attempts != [] && !Succeeds(attempts)
    ensures var n := |attempts| - 1;
            !Succeeds(attempts[..n]) && Answer(Run(attempts[..n]), attempts[n].matches, attempts[n].at) != Success
  {
    var before := attempts[..|attempts| - 1];
    forall k | 0 <= k < |before|
      ensures Answer(Run(before[..k]), before[k].matches, before[k].at) != Success
    {
      assert before[..k] == attempts[..k];
    }
  }

  lemma {:induction false} MismatchesArePast(attempts: seq<Attempt>, at: Time)
    requires forall i :: 0 <= i < |attempts| ==> attempts[i].at <= at
    ensures forall i :: 0 <= i < |Mismatches(attempts)| ==> Mismatches(attempts)[i] <= at
  {
    if attempts != [] {
      MismatchesArePast(attempts[..|attempts| - 1], at);
    }
  }

  lemma {:induction false} MismatchesAreSpaced(attempts: seq<Attempt>)
    requires Monotone(attempts) && !Succeeds(attempts)
    ensures Spaced(Run(attempts), Mismatches(attempts))
  {
    if attempts != [] {
      var n := |attempts| - 1;
      var before, a := attempts[..n], attempts[n];
      NoEarlierSuccess(attempts);
      MismatchesArePast(before, a.at);
      assert Monotone(before);
      hide Succeeds, Spaced, Monotone;
      MismatchesAreSpaced(before);
      assert Run(attempts) == After(Run(before), a.matches, a.at);
      assert Mismatches(attempts) ==
        Mismatches(before) + if Answer(Run(before), a.matches, a.at) == Mismatch then [a.at] else [];
      hide Run, Mismatches, After, Answer;
      SpacedStep(Run(before), Mismatches(before), a.matches, a.at);
    }
  }

  lemma FifthAmongFive(i: nat) returns (j: nat)
    ensures i <= j < i + 5 && j % 5 == 4
  {
    j := i + (4 - i % 5);
  }

  lemma SpacedSix(t: Throttle, ts: seq<Time>, i: nat)
    requires Spaced(t, ts) && i + 5 < |ts|
    ensures ts[i] + LOCKOUT <= ts[i + 5]
  {
    var j := FifthAmongFive(i);
    assert ts[j] + LOCKOUT <= ts[j + 1];
    assert i < j ==> ts[i] <= ts[j];
    assert j + 1 < i + 5 ==> ts[j + 1] <= ts[i + 5];
  }

  /** In a run without a success, any six wrong passwords are spread over at least the lockout: no
      half-open quarter of an hour has more than five. */
  lemma AtMostFivePerLockout(attempts: seq<Attempt>, i: nat)
    requires Monotone(attempts) && !Succeeds(attempts)
    requires i + 5 < |Mismatches(attempts)|
    ensures Mismatches(attempts)[i] + 15 * 60 <= Mismatches(attempts)[i + 5]
  {
    MismatchesAreSpaced(attempts);
    hide Mismatches, Run, Succeeds, Monotone, Spaced;
    SpacedSix(Run(attempts), Mismatches(attempts), i);
  }

  /** Every fifth wrong password, and no other, locks the account for a quarter of an hour, against the right
      password too; otherwise the right password succeeds. */
  lemma FifthLocks(attempts: seq<Attempt>, matches: bool, at: Time)
    requires Monotone(attempts) && !Succeeds(attempts)
    ensures var wrong := Mismatches(attempts);
            var locked := wrong != [] && |wrong| % 5 == 0 && at < wrong[|wrong| - 1] + 15 * 60;
            Answer(Run(attempts), matches, at) ==
            if locked then LockedOut else if matches then Success else Mismatch
  {
    MismatchesAreSpaced(attempts);
    hide Mismatches, Run, Succeeds, Monotone, Spacing;
  }

  /** A success wipes the slate: what follows goes as on a fresh account. */
  lemma {:induction false} SuccessWipesTheSlate(before: seq<Attempt>, a: Attempt, after: seq<Attempt>)
    requires Answer(Run(before), a.matches, a.at) == Success
    ensures Run(before + [a] + after) == Run(after)
  {
    var all := before + [a] + after;
    if after == [] {
      assert all == before + [a] && all[..|before|] == before;
    } else {
      var n := |after| - 1;
      assert all[..|all| - 1] == before + [a] + after[..n];
      SuccessWipesTheSlate(before, a, after[..n]);
    }
  }
}
