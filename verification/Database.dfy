/** The handlers as they run: statement by statement on the tables, one transaction each. */
module Database {
  import opened Wrappers
  import opened Sums
  import opened Ledger
  import opened Splits
  import opened Handlers
  import opened GroupLedger

  /** gen_random_uuid(): some id not in use. */
  method NewId(used: set<Uuid>) returns (id: Uuid)
    ensures id !in used
  {
    id := 0;
    ghost var seen := {};
    while id in used
      invariant seen <= used && forall i :: i in seen <==> 0 <= i < id
      decreases |used - seen|
    {
      assert id in used - seen;
      assert used - (seen + {id}) == (used - seen) - {id};
      seen := seen + {id};
      id := id + 1;
    }
  }

  /** COALESCE(SUM(...), 0). */
  method SumOf(keys: set<Uuid>, f: Uuid -> int) returns (sum: int)
    ensures sum == Sum(keys, f)
  {
    sum := 0;
    var left := keys;
    while left != {}
      invariant sum + Sum(left, f) == Sum(keys, f)
    {
      var k := Pick(left);
      SumTake(left, f, k);
      sum := sum + f(k);
      left := left - {k};
    }
  }

  // ----- One desired split -----

  /** Serving `u` does not touch the row of another user served before. */
  lemma ServedStays(
    txs: map<Uuid, Tx>, kept: map<Uuid, Split>, gid: Uuid, v: Uuid, amountV: Cents, u: Uuid, amount: Cents,
    details: Details, now: Time, txs': map<Uuid, Tx>, splitV: Split, txs'': map<Uuid, Tx>, split: Split)
    requires LinksOk(txs, gid, kept) && u != v
    requires ServedBy(txs, kept, gid, v, amountV, details, now, txs', splitV)
    requires forall q :: q in txs ==> q in txs'
    requires ServedBy(txs', kept, gid, u, amount, details, now, txs'', split)
    requires txs'' == txs'[split.txId.value := txs''[split.txId.value]]
    ensures ServedBy(txs, kept, gid, v, amountV, details, now, txs'', splitV)
  {
    if HasRow(kept, v) {
      assert Linked(kept, v, kept[v].txId.value);
    }
    if HasRow(kept, u) {
      assert Linked(kept, u, kept[u].txId.value);
    }
  }

  /** Serving `u` after others, or again, is serving `u` on the rows as they first were. */
  lemma ServedLater(
    txs: map<Uuid, Tx>, kept: map<Uuid, Split>, gid: Uuid, u: Uuid, amount: Cents, details: Details, now: Time,
    txs': map<Uuid, Tx>, txs'': map<Uuid, Tx>, split: Split)
    requires forall q :: q in txs ==> q in txs'
    requires HasRow(kept, u) ==>
               var q := kept[u].txId.value;
               q in txs && Written(txs'[q], amount, details, now) == Written(txs[q], amount, details, now)
    requires ServedBy(txs', kept, gid, u, amount, details, now, txs'', split)
    ensures ServedBy(txs, kept, gid, u, amount, details, now, txs'', split)
  {
  }

  /** A row not yet served is as it was, and a row already served is so but for what serving writes. */
  lemma RowBeforeServing(
    txs: map<Uuid, Tx>, kept: map<Uuid, Split>, gid: Uuid, done: seq<SplitInput>, u: Uuid, amount: Cents,
    details: Details, now: Time, txs': map<Uuid, Tx>, splits': map<Uuid, Split>)
    requires LinksOk(txs, gid, kept) && AllServed(txs, kept, gid, done, details, now, txs', splits')
    ensures forall q :: q in txs ==> q in txs'
    ensures HasRow(kept, u) ==>
              var q := kept[u].txId.value;
              q in txs && q in txs' && Written(txs'[q], amount, details, now) == Written(txs[q], amount, details, now)
  {
    hide AmountOf, RowsMade, Users;
    if HasRow(kept, u) {
      assert Linked(kept, u, kept[u].txId.value);
      if u in Users(done) {
        assert ServedBy(txs, kept, gid, u, AmountOf(done, u), details, now, txs', splits'[u]);
      }
    }
  }

  /** One more turn of the second loop: the users served. */
  lemma UsersServed(
    txs: map<Uuid, Tx>, kept: map<Uuid, Split>, gid: Uuid, done: seq<SplitInput>, s: SplitInput, details: Details,
    now: Time, txs': map<Uuid, Tx>, splits': map<Uuid, Split>, txs'': map<Uuid, Tx>, split: Split, v: Uuid)
    requires LinksOk(txs, gid, kept)
    requires AllServed(txs, kept, gid, done, details, now, txs', splits')
    requires ServedBy(txs', kept, gid, s.user, Rounded(s.amount), details, now, txs'', split)
    requires txs'' == txs'[split.txId.value := txs''[split.txId.value]]
    requires v in Users(done + [s])
    ensures v == s.user || v in Users(done)
    ensures ServedBy(txs, kept, gid, v, AmountOf(done + [s], v), details, now, txs'', splits'[s.user := split][v])
  {
    hide LinksOk, ServedBy, AmountOf, Users, RowsMade, RowsKept, HasRow, Written;
    var u, all := s.user, done + [s];
    RowBeforeServing(txs, kept, gid, done, u, Rounded(s.amount), details, now, txs', splits');
    UsersOneMore(all, |done|);
    assert all[..|done|] == done && all[..|done| + 1] == all;
    assert v != u ==> ServedBy(txs, kept, gid, v, AmountOf(done, v), details, now, txs', splits'[v]);
    hide AllServed;
    if v == u {
      ServedLater(txs, kept, gid, u, Rounded(s.amount), details, now, txs', txs'', split);
    } else {
      ServedStays(txs, kept, gid, v, AmountOf(done, v), u, Rounded(s.amount), details, now, txs', splits'[v],
        txs'', split);
    }
  }

  /** One more turn: all of it. */
  lemma ServedOneMore(
    txs: map<Uuid, Tx>, kept: map<Uuid, Split>, gid: Uuid, done: seq<SplitInput>, s: SplitInput, details: Details,
    now: Time, txs': map<Uuid, Tx>, splits': map<Uuid, Split>, txs'': map<Uuid, Tx>, split: Split)
    requires LinksOk(txs, gid, kept)
    requires AllServed(txs, kept, gid, done, details, now, txs', splits')
    requires ServedBy(txs', kept, gid, s.user, Rounded(s.amount), details, now, txs'', split)
    requires txs'' == txs'[split.txId.value := txs''[split.txId.value]]
    ensures AllServed(txs, kept, gid, done + [s], details, now, txs'', splits'[s.user := split])
  {
    hide LinksOk, ServedBy, AmountOf, Users, RowsMade, RowsKept, HasRow, Written;
    var u, all, splits'' := s.user, done + [s], splits'[s.user := split];
    RowBeforeServing(txs, kept, gid, done, u, Rounded(s.amount), details, now, txs', splits');
    UsersOneMore(all, |done|);
    assert all[..|done|] == done && all[..|done| + 1] == all;
    KeptOneMore(txs, kept, gid, Users(done), u, Rounded(s.amount), details, now, txs', txs'', split);
    var made: map<nat, Uuid> :| RowsMade(made, txs, kept, gid, done, details, now, txs');
    MadeOneMore(made, txs, kept, gid, done, s, details, now, txs', txs'', split);
    forall v | v in Users(all)
      ensures ServedBy(txs, kept, gid, v, AmountOf(all, v), details, now, txs'', splits''[v])
    {
      UsersServed(txs, kept, gid, done, s, details, now, txs', splits', txs'', split, v);
    }
    assert splits''.Keys == kept.Keys + Users(all);
  }

  lemma KeptOneMore(
    txs: map<Uuid, Tx>, kept: map<Uuid, Split>, gid: Uuid, us: set<Uuid>, u: Uuid, amount: Cents, details: Details,
    now: Time, txs': map<Uuid, Tx>, txs'': map<Uuid, Tx>, split: Split)
    requires RowsKept(txs, kept, us, txs')
    requires ServedBy(txs', kept, gid, u, amount, details, now, txs'', split)
    requires txs'' == txs'[split.txId.value := txs''[split.txId.value]]
    ensures RowsKept(txs, kept, us + {u}, txs'')
  {
    forall q | q in txs && forall v :: v in us + {u} ==> !Linked(kept, v, q)
      ensures txs''[q] == txs[q]
    {
      assert u in us + {u} && !Linked(kept, u, q);
      assert forall v :: v in us ==> v in us + {u};
    }
  }

  /** A request for a user without a row makes one more row, any other none. */
  lemma MadeOneMore(
    made: map<nat, Uuid>, txs: map<Uuid, Tx>, kept: map<Uuid, Split>, gid: Uuid, done: seq<SplitInput>, s: SplitInput,
    details: Details, now: Time, txs': map<Uuid, Tx>, txs'': map<Uuid, Tx>, split: Split)
    requires RowsMade(made, txs, kept, gid, done, details, now, txs')
    requires (forall q :: q in txs ==> q in txs') && (HasRow(kept, s.user) ==> kept[s.user].txId.value in txs)
    requires ServedBy(txs', kept, gid, s.user, Rounded(s.amount), details, now, txs'', split)
    requires txs'' == txs'[split.txId.value := txs''[split.txId.value]]
    ensures exists made': map<nat, Uuid> :: RowsMade(made', txs, kept, gid, done + [s], details, now, txs'')
  {
    ServedRow(txs', kept, gid, s.user, Rounded(s.amount), details, now, txs'', split);
    hide ServedBy, RowsMade, HasRow;
    if HasRow(kept, s.user) {
      NoRowMade(made, txs, kept, gid, done, s, details, now, txs', txs'', split.txId.value);
    } else {
      OneRowMade(made, txs, kept, gid, done, s, details, now, txs', txs'', split.txId.value);
    }
  }

  lemma NoRowMade(
    made: map<nat, Uuid>, txs: map<Uuid, Tx>, kept: map<Uuid, Split>, gid: Uuid, done: seq<SplitInput>, s: SplitInput,
    details: Details, now: Time, txs': map<Uuid, Tx>, txs'': map<Uuid, Tx>, p: Uuid)
    requires RowsMade(made, txs, kept, gid, done, details, now, txs')
    requires HasRow(kept, s.user) && p in txs && p in txs'
    requires p in txs'' && txs'' == txs'[p := txs''[p]]
    ensures RowsMade(made, txs, kept, gid, done + [s], details, now, txs'')
  {
    hide HasRow, NewRow, Rounded;
    assert forall i: nat :: i < |done| ==> (done + [s])[i] == done[i];
    assert forall i :: i in made ==> made[i] != p;
  }

  lemma OneRowMade(
    made: map<nat, Uuid>, txs: map<Uuid, Tx>, kept: map<Uuid, Split>, gid: Uuid, done: seq<SplitInput>, s: SplitInput,
    details: Details, now: Time, txs': map<Uuid, Tx>, txs'': map<Uuid, Tx>, p: Uuid)
    requires RowsMade(made, txs, kept, gid, done, details, now, txs') && forall q :: q in txs ==> q in txs'
    requires !HasRow(kept, s.user) && p !in txs'
    requires p in txs'' && txs'' == txs'[p := txs''[p]]
    requires txs''[p] == NewRow(s.user, Rounded(s.amount), details, gid, now)
    ensures RowsMade(made[|done| := p], txs, kept, gid, done + [s], details, now, txs'')
  {
    hide HasRow, NewRow, Injective, Rounded;
    var made' := made[|done| := p];
    InjectiveOneMore(made, |done|, p);
    assert forall i: nat :: i < |done| ==> (done + [s])[i] == done[i];
    forall q | q in txs'' && q !in txs
      ensures exists i :: i in made' && made'[i] == q
    {
      if q == p {
        assert made'[|done|] == q;
      } else {
        var i :| i in made && made[i] == q;
        assert made'[i] == q;
      }
    }
  }

  lemma ServedRow(
    txs: map<Uuid, Tx>, kept: map<Uuid, Split>, gid: Uuid, u: Uuid, amount: Cents, details: Details, now: Time,
    txs': map<Uuid, Tx>, split: Split)
    requires ServedBy(txs, kept, gid, u, amount, details, now, txs', split)
    ensures split.txId.Some? && split.txId.value in txs'
    ensures HasRow(kept, u) ==> split.txId == kept[u].txId && split.txId.value in txs
    ensures !HasRow(kept, u) ==>
              split.txId.value !in txs && txs'[split.txId.value] == NewRow(u, amount, details, gid, now)
  {
  }

  function NonMembers(db: Tables, g: Uuid, us: seq<Uuid>): seq<Uuid> {
    if us == [] then []
    else NonMembers(db, g, us[..|us| - 1]) + if IsMember(db, g, us[|us| - 1]) then [] else [us[|us| - 1]]
  }

  lemma {:induction false} NonMembersAreMissing(db: Tables, g: Uuid, us: seq<Uuid>)
    ensures NonMembers(db, g, us) == [] <==> forall u :: u in us ==> IsMember(db, g, u)
  {
    if us != [] {
      NonMembersAreMissing(db, g, us[..|us| - 1]);
      assert us == us[..|us| - 1] + [us[|us| - 1]];
    }
  }

  function UserList(desired: seq<SplitInput>): seq<Uuid> {
    seq(|desired|, i requires 0 <= i < |desired| => desired[i].user)
  }

  lemma UserListUsers(desired: seq<SplitInput>)
    ensures forall u :: u in UserList(desired) <==> u in Users(desired)
  {
    forall u | u in Users(desired)
      ensures u in UserList(desired)
    {
      var i :| 0 <= i < |desired| && desired[i].user == u;
      assert UserList(desired)[i] == u;
    }
  }

  lemma {:induction false} RepeatGrows(desired: seq<SplitInput>, i: nat, splits: map<Uuid, Split>)
    requires i < |desired| && !RepeatsNewUser(desired[..i], splits)
    ensures RepeatsNewUser(desired[..i + 1], splits) <==>
        desired[i].user in Users(desired[..i]) && desired[i].user !in splits
    ensures RepeatsNewUser(desired[..i + 1], splits) ==> RepeatsNewUser(desired, splits)
  {
    var u := desired[i].user;
    if u in Users(desired[..i]) && u !in splits {
      var j :| 0 <= j < i && desired[..i][j].user == u;
      assert desired[..i + 1][j].user == desired[..i + 1][i].user;
      assert desired[j].user == desired[i].user;
    }
    forall j, k | 0 <= j < k < i && desired[j].user == desired[k].user
      ensures desired[k].user in splits
    {
      assert desired[..i][j].user == desired[..i][k].user;
    }
    if RepeatsNewUser(desired[..i + 1], splits) {
      var j, k :| 0 <= j < k < i + 1 && desired[..i + 1][j].user == desired[..i + 1][k].user
          && desired[..i + 1][k].user !in splits;
      assert desired[j].user == desired[k].user;
    }
  }

  lemma RefusedGrows(desired: seq<SplitInput>, i: nat, splits: map<Uuid, Split>)
    requires i < |desired| && !Refused(desired[..i], splits)
    ensures Refused(desired[..i + 1], splits) <==>
            (desired[i].user in Users(desired[..i]) && desired[i].user !in splits) || !Storable(desired[i].amount)
    ensures Refused(desired[..i + 1], splits) ==> Refused(desired, splits)
  {
    RepeatGrows(desired, i, splits);
    hide RepeatsNewUser, Users, Storable;
    assert desired[..i + 1] == desired[..i] + [desired[i]];
    assert desired[i] in desired;
  }

  class Store {
    var currencies: map<Uuid, string>
    var groups: map<Uuid, Group>
    var groupTxs: map<Uuid, GroupTx>
    var txs: map<Uuid, Tx>
    var settlements: map<Uuid, Settlement>

    function State(): Tables
      reads this
    {
      Tables(currencies, groups, groupTxs, txs, settlements)
    }

    constructor ()
      ensures State() == Tables(map[], map[], map[], map[], map[])
    {
      currencies, groups, groupTxs, txs, settlements := map[], map[], map[], map[], map[];
    }

    /** Rollback: what `WithTx` does with an error. */
    method Restore(saved: Tables)
      modifies this
      ensures State() == saved
    {
      currencies, groups, groupTxs, txs, settlements :=
        saved.currencies, saved.groups, saved.groupTxs, saved.txs, saved.settlements;
    }

    /** The users of `us` that are not members of the live group, in order. */
    method MissingGroupMembers(g: Uuid, us: seq<Uuid>) returns (missing: seq<Uuid>)
      ensures missing == NonMembers(State(), g, us)
    {
      missing := [];
      var present := set u | u in us && IsMember(State(), g, u);
      for i := 0 to |us|
        invariant missing == NonMembers(State(), g, us[..i])
      {
        assert us[..i + 1][..i] == us[..i];
        if us[i] !in present {
          missing := missing + [us[i]];
        }
      }
      assert us[..|us|] == us;
    }

    // ----- applySplitsInPlace -----

    /** Step 1: users no longer in the splits. */
    method RemoveOthers(current: map<Uuid, Split>, keep: set<Uuid>, now: Time) returns (splits: map<Uuid, Split>)
      modifies `txs
      ensures txs == KeptTxs(old(txs), current, keep, now)
      ensures splits == KeptSplits(current, keep)
    {
      splits := current;
      var left := current.Keys;
      while left != {}
        invariant left <= current.Keys
        invariant txs == KeptTxs(old(txs), current, keep + left, now)
        invariant splits == KeptSplits(current, keep + left)
      {
        var u := Pick(left);
        ghost var before := left;
        left := left - {u};
        assert before == left + {u};
        if u !in keep {
          if current[u].txId.Some? && current[u].txId.value in txs {
            var p := current[u].txId.value;
            txs := txs[p := Removed(txs[p], now)];
          }
          splits := splits - {u};
        }
        RemovedOneMore(old(txs), current, keep, left, u, now);
      }
      assert keep + left == keep;
    }

    /** One turn of step 2: the personal row first, then the split row. False when the row's amount rounds
        to nothing, and on a unique violation. */
    method ServeOne(
      gid: Uuid, current: map<Uuid, Split>, splits: map<Uuid, Split>, s: SplitInput, details: Details, now: Time)
      returns (ok: bool, splits': map<Uuid, Split>)
      modifies `txs
      ensures ok <==> (s.user in current || s.user !in splits) && Storable(s.amount)
      ensures ok ==>
          && s.user in splits' && splits' == splits[s.user := splits'[s.user]]
          && splits'[s.user].amount == Rounded(s.amount)
      ensures ok && (s.user in current && current[s.user].txId.Some? ==> current[s.user].txId.value in old(txs)) ==>
                && ServedBy(old(txs), current, gid, s.user, Rounded(s.amount), details, now, txs, splits'[s.user])
                && txs == old(txs)[splits'[s.user].txId.value := txs[splits'[s.user].txId.value]]
    {
      var u, amount := s.user, Rounded(s.amount);
      if amount <= 0 {
        return false, splits;
      }
      var memberTxId: Uuid;
      if u in current && current[u].txId.Some? {
        memberTxId := current[u].txId.value;
        if memberTxId in txs {
          txs := txs[memberTxId := Written(txs[memberTxId], amount, details, now)];
        }
      } else {
        memberTxId := NewId(txs.Keys);
        txs := txs[memberTxId := NewRow(u, amount, details, gid, now)];
      }
      if u in current {
        splits' := splits[u := Split(current[u].id, amount, Some(memberTxId))];
      } else {
        if u in splits {
          return false, splits;
        }
        var splitId := NewId(set v | v in splits :: splits[v].id);
        splits' := splits[u := Split(splitId, amount, Some(memberTxId))];
      }
      ok := true;
    }

    /** Step 2: every desired split and its personal row. False when a constraint is hit. */
    method ServeAll(
      gid: Uuid, current: map<Uuid, Split>, kept: map<Uuid, Split>, desired: seq<SplitInput>, details: Details,
      now: Time)
      returns (ok: bool, splits: map<Uuid, Split>)
      requires kept == KeptSplits(current, Users(desired))
      modifies `txs
      ensures ok <==> !Refused(desired, current)
      ensures ok ==> Progress(old(txs), kept, current, gid, desired, details, now, txs, splits)
    {
      ghost var txs0 := txs;
      splits := kept;
      NoProgress(txs, kept, current, gid, details, now);
      hide KeptSplits, Users, ServedBy, Progress, Refused;
      for i := 0 to |desired|
        invariant Progress(txs0, kept, current, gid, desired[..i], details, now, txs, splits)
      {
        ghost var txs', splits' := txs, splits;
        ok, splits := ServeOne(gid, current, splits, desired[i], details, now);
        if !ok {
          NoMoreProgress(txs0, kept, current, gid, desired, i, details, now, txs', splits');
          return;
        }
        MoreProgress(txs0, kept, current, gid, desired, i, details, now, txs', splits', txs, splits);
      }
      assert desired[..|desired|] == desired;
      FullProgress(txs0, kept, current, gid, desired, details, now, txs, splits);
      ok := true;
    }

    /** Reconciles the split rows of `gid`, and their personal rows, with `desired`. On false the
        caller rolls back. */
    method ApplySplitsInPlace(gid: Uuid, desired: seq<SplitInput>, details: Details, now: Time) returns (ok: bool)
      requires gid in groupTxs
      modifies `txs, `groupTxs
      ensures ok <==> !Refused(desired, old(groupTxs)[gid].splits)
      ensures ok ==>
          gid in groupTxs && groupTxs == old(groupTxs)[gid := old(groupTxs)[gid].(splits := groupTxs[gid].splits)]
      ensures ok ==>
          SplitsApplied(old(txs), old(groupTxs)[gid].splits, gid, desired, details, now, txs, groupTxs[gid].splits)
    {
      var current := groupTxs[gid].splits;
      var desiredByUser := Users(desired);
      TrimmedLinksOk(txs, current, gid, desiredByUser, now);
      hide LinksOk, Refused, AllServed, KeptTxs, KeptSplits, Progress;
      var splits := RemoveOthers(current, desiredByUser, now);
      ghost var trimmed := txs;
      ok, splits := ServeAll(gid, current, splits, desired, details, now);
      if ok {
        FullProgress(trimmed, KeptSplits(current, desiredByUser), current, gid, desired, details, now, txs, splits);
        groupTxs := groupTxs[gid := groupTxs[gid].(splits := splits)];
      }
    }

    // ----- Shared transactions -----

    /** The loop that adds the split amounts up, and stops at a negative one. */
    method AddUp(desired: seq<SplitInput>) returns (negative: bool, sum: Amount)
      ensures negative <==> exists s :: s in desired && s.amount < 0.0
      ensures !negative ==> sum == InputSum(desired)
    {
      sum := 0.0;
      for i := 0 to |desired|
        invariant forall s :: s in desired[..i] ==> s.amount >= 0.0
        invariant sum == InputSum(desired[..i])
      {
        if desired[i].amount < 0.0 {
          return true, sum;
        }
        assert desired[..i + 1][..i] == desired[..i];
        sum := sum + desired[i].amount;
      }
      assert desired[..|desired|] == desired;
      negative := false;
    }

    /** The upsert and its splits, or the reason why not; an error rolls back. */
    method UpsertGroupTransaction(g: Uuid, req: CreateGroupTxRequest, now: Time) returns (r: Response)
      modifies this
      ensures r == UpsertGroupTxResult(old(State()), g, req, now)
      ensures if r == Ok then CreateGroupTxEffect(old(State()), g, req, now, State()) else State() == old(State())
    {
      hide SplitsApplied, Refused;
      var version := OrElse(req.updatedAt, now);
      if Rounded(req.total) <= 0 {
        return ServerError;
      }
      if req.id in groupTxs {
        if groupTxs[req.id].group != g {
          return Conflict("ID_OWNED_BY_ANOTHER_GROUP");
        }
        if groupTxs[req.id].updatedAt > version {
          return Conflict("STALE_WRITE");
        }
      }
      var saved := State();
      var splits := OldSplits(saved, req.id);
      groupTxs := groupTxs[req.id := GroupTx(g, req.paidBy, Rounded(req.total), req.details, false, version, splits)];
      var ok := ApplySplitsInPlace(req.id, req.splits, req.details, now);
      if !ok {
        Restore(saved);
        return ServerError;
      }
      r := Ok;
    }

    method CreateGroupTransaction(caller: Uuid, g: Uuid, req: CreateGroupTxRequest, now: Time) returns (r: Response)
      modifies this
      ensures r == Result(old(State()), CreateGroupTx(caller, g, req), now)
      ensures Step(old(State()), CreateGroupTx(caller, g, req), now, State())
    {
      hide CreateGroupTxEffect, UpsertGroupTxResult, InputSum, OneCurrency, NonMembers, Users, UserList;
      if !IsMember(State(), g, caller) {
        return Forbidden;
      }
      if req.total == 0.0 || |req.splits| == 0 || exists s :: s in req.splits && s.amount == 0.0 {
        return BadRequest;
      }
      if req.total <= 0.0 {
        return BadRequest;
      }
      var negative, sum := AddUp(req.splits);
      if negative || sum != req.total {
        return BadRequest;
      }
      var missing := MissingGroupMembers(g, [req.paidBy] + UserList(req.splits));
      AllListed(State(), g, req.paidBy, req.splits);
      if |missing| > 0 || !OneCurrency(State(), Users(req.splits) + {req.paidBy}) {
        return BadRequest;
      }
      r := UpsertGroupTransaction(g, req, now);
    }

    /** The guarded update with its splits or its synced rows, or the reason why not; an error rolls
        back. */
    method RewriteGroupTransaction(id: Uuid, req: UpdateGroupTxRequest, now: Time) returns (r: Response)
      requires id in groupTxs
      modifies this
      ensures r == RewriteGroupTxResult(old(groupTxs)[id], req, now)
      ensures if r == Ok then UpdateGroupTxEffect(old(State()), id, req, now, State()) else State() == old(State())
    {
      hide SplitsApplied, Refused, SyncedTxs, Patched;
      var gt := groupTxs[id];
      if gt.updatedAt > OrElse(req.updatedAt, now) {
        return if req.updatedAt.Some? then Conflict("STALE_WRITE") else NotFound;
      }
      if req.total.Some? && Rounded(req.total.value) <= 0 {
        return ServerError;
      }
      var saved := State();
      groupTxs := groupTxs[id := UpdatedRow(gt, req, now)];
      if |req.splits| > 0 {
        var ok := ApplySplitsInPlace(id, req.splits, groupTxs[id].details, now);
        if !ok {
          Restore(saved);
          return ServerError;
        }
      } else {
        NothingRefused(req.splits, gt.splits);
        txs := SyncedTxs(txs, id, req.patch, now);
      }
      r := Ok;
    }

    method UpdateGroupTransaction(
      caller: Uuid, g: Uuid, id: Uuid, req: UpdateGroupTxRequest, now: Time) returns (r: Response)
      modifies this
      ensures r == Result(old(State()), UpdateGroupTx(caller, g, id, req), now)
      ensures Step(old(State()), UpdateGroupTx(caller, g, id, req), now, State())
    {
      hide UpdateGroupTxEffect, RewriteGroupTxResult, InputSum, OneCurrency, NonMembers, Users, UserList;
      if !LiveTx(groupTxs, g, id) {
        return NotFound;
      }
      var gt := groupTxs[id];
      if !Involved(gt, caller) {
        return Forbidden;
      }
      if exists s :: s in req.splits && s.amount == 0.0 {
        return BadRequest;
      }
      var payer := OrElse(req.paidBy, gt.paidBy);
      if req.paidBy.Some? && !IsMember(State(), g, payer) {
        return BadRequest;
      }
      var hasSplits := |req.splits| > 0;
      if req.total.Some? && (req.total.value <= 0.0 || !hasSplits) {
        return BadRequest;
      }
      if hasSplits {
        var negative, sum := AddUp(req.splits);
        if negative || sum != OrElse(req.total, gt.total as real) {
          return BadRequest;
        }
        var missing := MissingGroupMembers(g, UserList(req.splits));
        UserListUsers(req.splits);
        NonMembersAreMissing(State(), g, UserList(req.splits));
        if |missing| > 0 || !OneCurrency(State(), Users(req.splits) + {payer}) {
          return BadRequest;
        }
      } else if req.paidBy.Some? && !OneCurrency(State(), gt.splits.Keys + {payer}) {
        return BadRequest;
      }
      if !hasSplits && req.paidBy.None? && req.patch == NO_PATCH {
        return BadRequest;
      }
      r := RewriteGroupTransaction(id, req, now);
    }

    method DeleteGroupTransaction(caller: Uuid, g: Uuid, id: Uuid, now: Time) returns (r: Response)
      modifies this
      ensures r == Result(old(State()), DeleteGroupTx(caller, g, id), now)
      ensures Step(old(State()), DeleteGroupTx(caller, g, id), now, State())
    {
      if !IsMember(State(), g, caller) {
        return Forbidden;
      }
      if id !in groupTxs || groupTxs[id].group != g {
        return NotFound;
      }
      if !Involved(groupTxs[id], caller) {
        return Forbidden;
      }
      txs := SoftDeletedTxs(txs, {id}, now);
      groupTxs := groupTxs[id := groupTxs[id].(isDeleted := true, updatedAt := now)];
      r := Ok;
    }

    // ----- Settlements -----

    method ReadPairwiseDebt(g: Uuid, from: Uuid, to: Uuid, exclude: Option<Uuid>) returns (debt: Cents)
      ensures debt == PairwiseDebt(groupTxs, settlements, g, from, to, exclude)
    {
      var fromOwes := SumOf(groupTxs.Keys, ShareTerm(groupTxs, g, from, to));
      var toOwes := SumOf(groupTxs.Keys, ShareTerm(groupTxs, g, to, from));
      var priorFt := SumOf(settlements.Keys, TransferTerm(settlements, g, from, to, exclude));
      var priorTf := SumOf(settlements.Keys, TransferTerm(settlements, g, to, from, exclude));
      debt := fromOwes - toOwes - priorFt + priorTf;
    }

    /** False when there is an excess whose rows round to nothing. */
    method BookPair(sid: Uuid, s: Settlement, excess: Amount, now: Time) returns (ok: bool)
      requires excess >= 0.0
      modifies `txs
      ensures ok <==> Bookable(excess)
      ensures if ok then PairBooked(old(txs), sid, s, Rounded(excess), now, txs) else txs == old(txs)
    {
      if excess > 0.0 {
        var amount := Rounded(excess);
        if amount <= 0 {
          return false;
        }
        var p := NewId(txs.Keys);
        var q := NewId(txs.Keys + {p});
        txs := txs[p := SettlementRow(s.to, Income, amount, sid, s.notes, now)];
        txs := txs[q := SettlementRow(s.from, Expense, amount, sid, s.notes, now)];
      }
      ok := true;
    }

    method CreateSettlement(
      caller: Uuid, sid: Uuid, g: Uuid, from: Uuid, to: Uuid, amount: Amount, notes: Option<string>, now: Time)
      returns (r: Response)
      modifies this
      ensures r == Result(old(State()), Command.CreateSettlement(caller, sid, g, from, to, amount, notes), now)
      ensures Step(old(State()), Command.CreateSettlement(caller, sid, g, from, to, amount, notes), now, State())
    {
      hide PairwiseDebt, PairBooked, ComputeSettlementEffect, Bookable;
      if amount == 0.0 {
        return BadRequest;
      }
      if !IsMember(State(), g, caller) {
        return Forbidden;
      }
      if !IsMember(State(), g, from) || !IsMember(State(), g, to) || from == to {
        return BadRequest;
      }
      if caller != from && caller != to {
        return Forbidden;
      }
      if amount <= 0.0 || !OneCurrency(State(), {from, to}) {
        return BadRequest;
      }
      if Rounded(amount) <= 0 || sid in settlements {
        return ServerError;
      }
      var saved := State();
      var s := Settlement(g, from, to, Rounded(amount), notes, false, now);
      settlements := settlements[sid := s];
      var debt := ReadPairwiseDebt(g, from, to, None);
      var effect := ComputeSettlementEffect(debt as real, amount);
      ExcessRounds(debt, amount);
      ExcessIsNotNegative(debt as real, amount);
      var ok := BookPair(sid, s, effect.excess, now);
      if !ok {
        Restore(saved);
        return ServerError;
      }
      r := Ok;
    }

    method UpdateSettlement(
      caller: Uuid, sid: Uuid, amount: Option<Amount>, notes: Option<string>, now: Time) returns (r: Response)
      modifies this
      ensures r == Result(old(State()), Command.UpdateSettlement(caller, sid, amount, notes), now)
      ensures Step(old(State()), Command.UpdateSettlement(caller, sid, amount, notes), now, State())
    {
      hide UpdateSettlementEffect;
      if sid !in settlements || settlements[sid].isDeleted {
        return NotFound;
      }
      if caller != settlements[sid].from && caller != settlements[sid].to {
        return Forbidden;
      }
      if amount.Some? && amount.value <= 0.0 {
        return BadRequest;
      }
      if amount.None? && notes.None? {
        return BadRequest;
      }
      r := RewriteSettlement(sid, amount, notes, now);
    }

    /** The database transaction: the row, and for a new amount its linked rows anew; an error rolls
        back. */
    method RewriteSettlement(sid: Uuid, amount: Option<Amount>, notes: Option<string>, now: Time) returns (r: Response)
      requires sid in settlements && (amount.Some? || notes.Some?) && (amount.Some? ==> amount.value > 0.0)
      modifies this
      ensures r == RewriteSettlementResult(old(State()), sid, amount, notes, now)
      ensures if r == Ok then UpdateSettlementEffect(old(State()), sid, amount, notes, now, State())
              else State() == old(State())
    {
      hide PairwiseDebt, PairBooked, Unlinked, NotesSynced, ComputeSettlementEffect, Bookable;
      if amount.Some? && Rounded(amount.value) <= 0 {
        return ServerError;
      }
      var saved := State();
      var s := UpdatedSettlement(settlements[sid], amount, notes, now);
      settlements := settlements[sid := s];
      if amount.Some? {
        if !OneCurrency(State(), {s.from, s.to}) {
          Restore(saved);
          return BadRequest;
        }
        var linked := RowsOfSettlement(txs, sid);
        txs := txs - linked;
        groupTxs := Unlinked(groupTxs, linked);
        var debt := ReadPairwiseDebt(s.group, s.from, s.to, Some(sid));
        var effect := ComputeSettlementEffect(debt as real, amount.value);
        ExcessRounds(debt, amount.value);
        ExcessIsNotNegative(debt as real, amount.value);
        var ok := BookPair(sid, s, effect.excess, now);
        if !ok {
          Restore(saved);
          return ServerError;
        }
      } else {
        txs := NotesSynced(txs, sid, notes.value, now);
      }
      r := Ok;
    }

    method DeleteSettlement(caller: Uuid, sid: Uuid, now: Time) returns (r: Response)
      modifies this
      ensures r == Result(old(State()), Command.DeleteSettlement(caller, sid), now)
      ensures Step(old(State()), Command.DeleteSettlement(caller, sid), now, State())
    {
      if sid !in settlements || settlements[sid].isDeleted {
        return NotFound;
      }
      if caller != settlements[sid].from && caller != settlements[sid].to {
        return Forbidden;
      }
      txs := map p | p in txs ::
        if txs[p].settlement == Some(sid) then txs[p].(isDeleted := true, updatedAt := now) else txs[p];
      settlements := settlements[sid := settlements[sid].(isDeleted := true, updatedAt := now)];
      r := Ok;
    }

    // ----- Groups and members -----

    method GetUserGroupBalance(g: Uuid, u: Uuid) returns (balance: Cents)
      ensures balance == UserGroupBalance(groupTxs, settlements, g, u)
    {
      var paid := SumOf(groupTxs.Keys, PaidTerm(groupTxs, g, u));
      var splits := SumOf(groupTxs.Keys, OwedTerm(groupTxs, g, u));
      var settPaid := SumOf(settlements.Keys, SentTerm(settlements, g, u));
      var settReceived := SumOf(settlements.Keys, ReceivedTerm(settlements, g, u));
      balance := paid - splits + settPaid - settReceived;
    }

    /** A new group has its creator as first member. */
    method CreateGroup(caller: Uuid, now: Time) returns (g: Uuid)
      modifies this
      ensures Result(old(State()), Command.CreateGroup(caller, g), now) == Ok
      ensures Step(old(State()), Command.CreateGroup(caller, g), now, State())
    {
      g := NewId(groups.Keys);
      groups := groups[g := Group(caller, {caller}, false, now)];
    }

    method AddMember(caller: Uuid, g: Uuid, user: Uuid, now: Time) returns (r: Response)
      modifies this
      ensures r == Result(old(State()), Command.AddMember(caller, g, user), now)
      ensures Step(old(State()), Command.AddMember(caller, g, user), now, State())
    {
      if !IsMember(State(), g, caller) {
        return Forbidden;
      }
      if user !in currencies || IsMember(State(), g, user) {
        return BadRequest;
      }
      groups := groups[g := groups[g].(members := groups[g].members + {user})];
      r := Ok;
    }

    method RemoveMember(caller: Uuid, g: Uuid, target: Uuid, now: Time) returns (r: Response)
      modifies this
      ensures r == Result(old(State()), Command.RemoveMember(caller, g, target), now)
      ensures Step(old(State()), Command.RemoveMember(caller, g, target), now, State())
    {
      hide UserGroupBalance;
      if target == caller {
        return BadRequest;
      }
      if !IsMember(State(), g, caller) {
        return Forbidden;
      }
      if target == groups[g].createdBy {
        return BadRequest;
      }
      if !IsMember(State(), g, target) {
        return NotFound;
      }
      var balance := GetUserGroupBalance(g, target);
      if balance != 0 {
        return BadRequest;
      }
      groups := groups[g := groups[g].(members := groups[g].members - {target})];
      r := Ok;
    }

    method LeaveGroup(caller: Uuid, g: Uuid, now: Time) returns (r: Response)
      modifies this
      ensures r == Result(old(State()), Command.LeaveGroup(caller, g), now)
      ensures Step(old(State()), Command.LeaveGroup(caller, g), now, State())
    {
      hide UserGroupBalance;
      if !IsMember(State(), g, caller) {
        return Forbidden;
      }
      if groups[g].createdBy == caller {
        return BadRequest;
      }
      var balance := GetUserGroupBalance(g, caller);
      if balance != 0 {
        return BadRequest;
      }
      groups := groups[g := groups[g].(members := groups[g].members - {caller})];
      r := Ok;
    }

    method DeleteGroup(caller: Uuid, g: Uuid, now: Time) returns (r: Response)
      modifies this
      ensures r == Result(old(State()), Command.DeleteGroup(caller, g), now)
      ensures Step(old(State()), Command.DeleteGroup(caller, g), now, State())
    {
      if g !in groups || groups[g].isDeleted {
        return NotFound;
      }
      if groups[g].createdBy != caller {
        return Forbidden;
      }
      txs := SoftDeletedTxs(txs, TxsOfGroup(groupTxs, g), now);
      groupTxs := map id | id in groupTxs ::
        if groupTxs[id].group == g then groupTxs[id].(isDeleted := true, updatedAt := now) else groupTxs[id];
      settlements := map id | id in settlements ::
        if settlements[id].group == g then settlements[id].(isDeleted := true, updatedAt := now) else settlements[id];
      groups := groups[g := groups[g].(isDeleted := true, updatedAt := now)];
      r := Ok;
    }

    // ----- Personal rows -----

    method CreateTransaction(caller: Uuid, req: UpsertTxRequest, now: Time) returns (r: Response)
      modifies this
      ensures r == Result(old(State()), UpsertTx(caller, req), now)
      ensures Step(old(State()), UpsertTx(caller, req), now, State())
    {
      if req.amount <= 0.0 {
        return BadRequest;
      }
      if Rounded(req.amount) <= 0 {
        return ServerError;
      }
      var version := OrElse(req.updatedAt, now);
      if req.id !in txs {
        txs := txs[req.id := Tx(caller, req.kind, Rounded(req.amount), req.details, None, None, false, version)];
        return Ok;
      }
      var row := txs[req.id];
      if row.user == caller && row.updatedAt <= version {
        txs := txs[req.id := row.(
          kind := req.kind, amount := Rounded(req.amount), details := req.details, updatedAt := version)];
        return Ok;
      }
      r := if row.user != caller then Conflict("ID_OWNED_BY_ANOTHER_USER") else Conflict("STALE_WRITE");
    }

    method UpdateTransaction(caller: Uuid, id: Uuid, req: UpdateTxRequest, now: Time) returns (r: Response)
      modifies this
      ensures r == Result(old(State()), UpdateTx(caller, id, req), now)
      ensures Step(old(State()), UpdateTx(caller, id, req), now, State())
    {
      if id !in txs || txs[id].isDeleted {
        return NotFound;
      }
      if txs[id].user != caller {
        return Forbidden;
      }
      if txs[id].groupTx.Some? {
        return BadRequest;
      }
      if req.amount.Some? && req.amount.value <= 0.0 {
        return BadRequest;
      }
      if req.kind.None? && req.amount.None? && req.patch == NO_PATCH {
        return BadRequest;
      }
      if req.amount.Some? && Rounded(req.amount.value) <= 0 {
        return ServerError;
      }
      var tx := txs[id];
      txs := txs[id := tx.(
        kind := OrElse(req.kind, tx.kind),
        amount := if req.amount.Some? then Rounded(req.amount.value) else tx.amount,
        details := Patched(tx.details, req.patch), updatedAt := now)];
      r := Ok;
    }

    method DeleteTransaction(caller: Uuid, id: Uuid, now: Time) returns (r: Response)
      modifies this
      ensures r == Result(old(State()), DeleteTx(caller, id), now)
      ensures Step(old(State()), DeleteTx(caller, id), now, State())
    {
      if id !in txs || txs[id].isDeleted {
        return NotFound;
      }
      if txs[id].user != caller {
        return Forbidden;
      }
      if txs[id].groupTx.Some? {
        return BadRequest;
      }
      txs := txs - {id};
      groupTxs := Unlinked(groupTxs, {id});
      r := Ok;
    }

    // ----- The purge job -----

    /** Personal rows; links from splits are cleared. */
    method PurgeTransactions(now: Time)
      modifies this
      ensures Step(old(State()), PurgeTxs, now, State())
    {
      var gone := set p | p in txs && Stale(txs[p].isDeleted, txs[p].updatedAt, now);
      assert gone == StaleTxs(old(State()), now);
      txs := txs - gone;
      groupTxs := Unlinked(groupTxs, gone);
    }

    /** Shared transactions with their splits; links from personal rows are cleared. */
    method PurgeGroupTransactions(now: Time)
      modifies this
      ensures Step(old(State()), PurgeGroupTxs, now, State())
    {
      var gone := set id | id in groupTxs && Stale(groupTxs[id].isDeleted, groupTxs[id].updatedAt, now);
      assert gone == StaleGroupTxs(old(State()), now);
      groupTxs := groupTxs - gone;
      ClearGroupTx(gone);
    }

    method PurgeSettlementRows(now: Time)
      modifies this
      ensures Step(old(State()), PurgeSettlements, now, State())
    {
      var gone := set id | id in settlements && Stale(settlements[id].isDeleted, settlements[id].updatedAt, now);
      assert gone == StaleSettlements(old(State()), now);
      settlements := settlements - gone;
      ClearSettlement(gone);
    }

    /** Groups with their members, shared transactions and settlements. */
    method PurgeGroupRows(now: Time)
      modifies this
      ensures Step(old(State()), PurgeGroups, now, State())
    {
      var gone := set g | g in groups && Stale(groups[g].isDeleted, groups[g].updatedAt, now);
      assert gone == StaleGroups(old(State()), now);
      groups := groups - gone;
      var gts := set id | id in groupTxs && groupTxs[id].group in gone;
      groupTxs := groupTxs - gts;
      ClearGroupTx(gts);
      var sts := set id | id in settlements && settlements[id].group in gone;
      settlements := settlements - sts;
      ClearSettlement(sts);
    }

    /** ON DELETE SET NULL on transactions.group_transaction_id. */
    method ClearGroupTx(gone: set<Uuid>)
      modifies `txs
      ensures txs == map p | p in old(txs) ::
                if old(txs)[p].groupTx.Some? && old(txs)[p].groupTx.value in gone
                then old(txs)[p].(groupTx := None) else old(txs)[p]
    {
      txs := map p | p in txs ::
        if txs[p].groupTx.Some? && txs[p].groupTx.value in gone then txs[p].(groupTx := None) else txs[p];
    }

    /** ON DELETE SET NULL on transactions.settlement_id. */
    method ClearSettlement(gone: set<Uuid>)
      modifies `txs
      ensures txs == map p | p in old(txs) ::
                if old(txs)[p].settlement.Some? && old(txs)[p].settlement.value in gone
                then old(txs)[p].(settlement := None) else old(txs)[p]
    {
      txs := map p | p in txs ::
        if txs[p].settlement.Some? && txs[p].settlement.value in gone then txs[p].(settlement := None) else txs[p];
    }

    /** Rows soft-deleted for a day go, in four statements that commit one by one, at four times. */
    method PurgeSoftDeleted(times: seq<Time>) returns (ghost after: seq<Tables>)
      requires |times| == 4
      modifies this
      ensures |after| == 4 && State() == after[3]
      ensures Step(old(State()), PurgeTxs, times[0], after[0])
      ensures Step(after[0], PurgeGroupTxs, times[1], after[1])
      ensures Step(after[1], PurgeSettlements, times[2], after[2])
      ensures Step(after[2], PurgeGroups, times[3], after[3])
    {
      hide Step;
      PurgeTransactions(times[0]);
      ghost var db0 := State();
      PurgeGroupTransactions(times[1]);
      ghost var db1 := State();
      PurgeSettlementRows(times[2]);
      ghost var db2 := State();
      PurgeGroupRows(times[3]);
      after := [db0, db1, db2, State()];
    }
  }

  lemma AllListed(db: Tables, g: Uuid, payer: Uuid, desired: seq<SplitInput>)
    ensures NonMembers(db, g, [payer] + UserList(desired)) == [] <==>
            forall u :: u in Users(desired) + {payer} ==> IsMember(db, g, u)
  {
    UserListUsers(desired);
    NonMembersAreMissing(db, g, [payer] + UserList(desired));
    assert forall u :: u in [payer] + UserList(desired) <==> u == payer || u in UserList(desired);
  }

  lemma NothingRefused(desired: seq<SplitInput>, splits: map<Uuid, Split>)
    requires |desired| == 0
    ensures !Refused(desired, splits)
  {
  }

  /** What step 2 has done after the requests `done`. */
  ghost predicate Progress(
    txs: map<Uuid, Tx>, kept: map<Uuid, Split>, current: map<Uuid, Split>, gid: Uuid, done: seq<SplitInput>,
    details: Details, now: Time, txs': map<Uuid, Tx>, splits': map<Uuid, Split>)
  {
    && !Refused(done, current)
    && splits'.Keys == kept.Keys + Users(done)
    && (forall u :: u in Users(done) ==> splits'[u].amount == AmountOf(done, u))
    && (LinksOk(txs, gid, kept) ==> AllServed(txs, kept, gid, done, details, now, txs', splits'))
  }

  lemma NoProgress(
    txs: map<Uuid, Tx>, kept: map<Uuid, Split>, current: map<Uuid, Split>, gid: Uuid, details: Details, now: Time)
    ensures Progress(txs, kept, current, gid, [], details, now, txs, kept)
  {
    var none: map<nat, Uuid> := map[];
    assert RowsMade(none, txs, kept, gid, [], details, now, txs);
  }

  lemma NoMoreProgress(
    txs: map<Uuid, Tx>, kept: map<Uuid, Split>, current: map<Uuid, Split>, gid: Uuid, desired: seq<SplitInput>, i: nat,
    details: Details, now: Time, txs': map<Uuid, Tx>, splits': map<Uuid, Split>)
    requires i < |desired| && kept == KeptSplits(current, Users(desired))
    requires Progress(txs, kept, current, gid, desired[..i], details, now, txs', splits')
    requires (desired[i].user !in current && desired[i].user in splits') || !Storable(desired[i].amount)
    ensures Refused(desired, current)
  {
    hide AllServed, LinksOk, AmountOf;
    RefusedGrows(desired, i, current);
  }

  lemma MoreProgress(
    txs: map<Uuid, Tx>, kept: map<Uuid, Split>, current: map<Uuid, Split>, gid: Uuid, desired: seq<SplitInput>, i: nat,
    details: Details, now: Time, txs': map<Uuid, Tx>, splits': map<Uuid, Split>, txs'': map<Uuid, Tx>,
    splits'': map<Uuid, Split>)
    requires i < |desired| && kept == KeptSplits(current, Users(desired))
    requires Progress(txs, kept, current, gid, desired[..i], details, now, txs', splits')
    requires var u := desired[i].user;
             && (u in current || u !in splits') && Storable(desired[i].amount)
             && u in splits'' && splits'' == splits'[u := splits''[u]]
             && splits''[u].amount == Rounded(desired[i].amount)
             && ((u in current && current[u].txId.Some? ==> current[u].txId.value in txs') ==>
                   && ServedBy(txs', current, gid, u, Rounded(desired[i].amount), details, now, txs'', splits''[u])
                   && txs'' == txs'[splits''[u].txId.value := txs''[splits''[u].txId.value]])
    ensures Progress(txs, kept, current, gid, desired[..i + 1], details, now, txs'', splits'')
  {
    hide AllServed, LinksOk, AmountOf, ServedBy, KeptSplits;
    RefusedGrows(desired, i, current);
    UsersOneMore(desired, i);
    if LinksOk(txs, gid, kept) {
      ServedNext(txs, kept, current, gid, desired, i, details, now, txs', splits', txs'', splits'');
    }
  }

  lemma FullProgress(
    txs: map<Uuid, Tx>, kept: map<Uuid, Split>, current: map<Uuid, Split>, gid: Uuid, desired: seq<SplitInput>,
    details: Details, now: Time, txs': map<Uuid, Tx>, splits': map<Uuid, Split>)
    requires kept == KeptSplits(current, Users(desired))
    requires Progress(txs, kept, current, gid, desired, details, now, txs', splits')
    ensures !Refused(desired, current) && splits'.Keys == Users(desired)
    ensures forall u :: u in splits' ==> splits'[u].amount == AmountOf(desired, u)
    ensures LinksOk(txs, gid, kept) ==> AllServed(txs, kept, gid, desired, details, now, txs', splits')
  {
  }

  lemma UsersOneMore(desired: seq<SplitInput>, i: nat)
    requires i < |desired|
    ensures Users(desired[..i + 1]) == Users(desired[..i]) + {desired[i].user}
    ensures desired[i].user in Users(desired)
    ensures AmountOf(desired[..i + 1], desired[i].user) == Rounded(desired[i].amount)
    ensures forall u :: u != desired[i].user ==> AmountOf(desired[..i + 1], u) == AmountOf(desired[..i], u)
  {
    assert desired[..i + 1] == desired[..i] + [desired[i]];
    assert desired[..i + 1][..i] == desired[..i];
  }

  lemma ServedNext(
    txs: map<Uuid, Tx>, kept: map<Uuid, Split>, current: map<Uuid, Split>, gid: Uuid, desired: seq<SplitInput>, i: nat,
    details: Details, now: Time, txs': map<Uuid, Tx>, splits': map<Uuid, Split>, txs'': map<Uuid, Tx>,
    splits'': map<Uuid, Split>)
    requires i < |desired|
    requires kept == KeptSplits(current, Users(desired)) && LinksOk(txs, gid, kept)
    requires AllServed(txs, kept, gid, desired[..i], details, now, txs', splits')
    requires var u := desired[i].user;
             && u in splits'' && splits'' == splits'[u := splits''[u]]
             && ((u in current && current[u].txId.Some? ==> current[u].txId.value in txs') ==>
                   && ServedBy(txs', current, gid, u, Rounded(desired[i].amount), details, now, txs'', splits''[u])
                   && txs'' == txs'[splits''[u].txId.value := txs''[splits''[u].txId.value]])
    ensures AllServed(txs, kept, gid, desired[..i + 1], details, now, txs'', splits'')
  {
    hide AllServed, LinksOk, KeptSplits, Users, AmountOf, ServedBy;
    var u := desired[i].user;
    RowBeforeServing(txs, kept, gid, desired[..i], u, Rounded(desired[i].amount), details, now, txs', splits');
    UsersOneMore(desired, i);
    ServedByKept(txs', current, Users(desired), gid, u, Rounded(desired[i].amount), details, now, txs'', splits''[u]);
    ServedOneMore(txs, kept, gid, desired[..i], desired[i], details, now, txs', splits', txs'', splits''[u]);
    assert desired[..i + 1] == desired[..i] + [desired[i]];
  }

  /** A user who is kept is served alike from the first snapshot and from the kept splits. */
  lemma ServedByKept(
    txs: map<Uuid, Tx>, current: map<Uuid, Split>, keep: set<Uuid>, gid: Uuid, u: Uuid, amount: Cents,
    details: Details, now: Time,
    txs': map<Uuid, Tx>, split: Split)
    requires u in keep
    ensures var kept := KeptSplits(current, keep);
            && (u in current <==> u in kept) && (u in kept ==> kept[u] == current[u])
            && (ServedBy(txs, current, gid, u, amount, details, now, txs', split) <==>
                ServedBy(txs, kept, gid, u, amount, details, now, txs', split))
  {
  }

  lemma TrimmedLinksOk(txs: map<Uuid, Tx>, current: map<Uuid, Split>, gid: Uuid, keep: set<Uuid>, now: Time)
    ensures LinksOk(txs, gid, current) ==> LinksOk(KeptTxs(txs, current, keep, now), gid, KeptSplits(current, keep))
  {
    if LinksOk(txs, gid, current) {
      assert forall u, p :: Linked(KeptSplits(current, keep), u, p) ==> Linked(current, u, p);
    }
  }

  lemma RemovedOneMore(
    txs: map<Uuid, Tx>, current: map<Uuid, Split>, keep: set<Uuid>, left: set<Uuid>, u: Uuid, now: Time)
    requires u in current && u !in left
    ensures var before, after := KeptTxs(txs, current, keep + (left + {u}), now),
        KeptTxs(txs, current, keep + left, now);
            after == if u !in keep && current[u].txId.Some? && current[u].txId.value in txs
                     then before[current[u].txId.value := Removed(before[current[u].txId.value], now)]
                     else before
  {
    var before, after := KeptTxs(txs, current, keep + (left + {u}), now), KeptTxs(txs, current, keep + left, now);
    forall p | p in txs
      ensures after[p] == if u !in keep && Linked(current, u, p) then Removed(before[p], now) else before[p]
    {
      if v :| v in current && v !in keep + (left + {u}) && Linked(current, v, p) {
        assert v !in keep + left;
      } else if u !in keep && Linked(current, u, p) {
        assert u !in keep + left;
      }
    }
  }
}
