/** What every run of the ledger keeps, careful or not: a split's link leads to its user's own row of
    its own shared transaction. Requests with a repeated user therefore have exactly the effect that
    `SplitsApplied` gives. */
module SplitLinks {
  import opened Wrappers
  import opened Ledger
  import opened Splits
  import opened Handlers
  import opened GroupLedger

  ghost predicate Links(db: Tables) {
    forall id :: id in db.groupTxs ==> LinksOk(db.txs, id, db.groupTxs[id].splits)
  }

  predicate SameRow(tx: Tx, tx': Tx) {
    tx'.user == tx.user && tx'.groupTx == tx.groupTx
  }

  /** Splits may stay or go with their transaction, rows may change but for owner and transaction. */
  lemma SameLinks(db: Tables, db': Tables)
    requires Links(db)
    requires forall id :: id in db'.groupTxs ==> id in db.groupTxs && db'.groupTxs[id].splits == db.groupTxs[id].splits
    requires forall p :: p in db.txs ==> p in db'.txs && SameRow(db.txs[p], db'.txs[p])
    ensures Links(db')
  {
    hide Linked;
  }

  lemma HardDeleteLinks(db: Tables, gone: set<Uuid>)
    requires Links(db)
    ensures Links(HardDeleted(db, gone))
  {
    var db' := HardDeleted(db, gone);
    forall id | id in db'.groupTxs
      ensures LinksOk(db'.txs, id, db'.groupTxs[id].splits)
    {
      assert LinksOk(db.txs, id, db.groupTxs[id].splits);
      forall u, p | Linked(db'.groupTxs[id].splits, u, p)
        ensures p in db'.txs && db'.txs[p].user == u && db'.txs[p].groupTx == Some(id)
      {
        assert Linked(db.groupTxs[id].splits, u, p);
      }
    }
  }

  lemma WithoutGroupTxsLinks(db: Tables, gone: set<Uuid>)
    requires Links(db)
    ensures Links(WithoutGroupTxs(db, gone))
  {
    var db' := WithoutGroupTxs(db, gone);
    forall id | id in db'.groupTxs
      ensures LinksOk(db'.txs, id, db'.groupTxs[id].splits)
    {
      assert LinksOk(db.txs, id, db.groupTxs[id].splits);
      hide Linked;
    }
  }

  lemma WithoutSettlementsLinks(db: Tables, gone: set<Uuid>)
    requires Links(db)
    ensures Links(WithoutSettlements(db, gone))
  {
    hide Links;
    SameLinks(db, WithoutSettlements(db, gone));
  }

  lemma WithoutGroupsLinks(db: Tables, gone: set<Uuid>)
    requires Links(db)
    ensures Links(WithoutGroups(db, gone))
  {
    hide Links, WithoutGroupTxs, WithoutSettlements;
    var gts := set id | id in db.groupTxs && db.groupTxs[id].group in gone;
    var sts := set id | id in db.settlements && db.settlements[id].group in gone;
    WithoutGroupTxsLinks(db, gts);
    WithoutSettlementsLinks(WithoutGroupTxs(db, gts), sts);
    SameLinks(WithoutSettlements(WithoutGroupTxs(db, gts), sts), WithoutGroups(db, gone));
  }

  /** The reconciled splits lead to rows of their users. */
  lemma ServedLinks(
    txs: map<Uuid, Tx>, splits: map<Uuid, Split>, gid: Uuid, desired: seq<SplitInput>, details: Details, now: Time,
    txs': map<Uuid, Tx>, splits': map<Uuid, Split>)
    requires LinksOk(txs, gid, splits) && splits'.Keys == Users(desired)
    requires Served(txs, splits, gid, desired, details, now, txs', splits')
    ensures LinksOk(txs', gid, splits')
  {
    hide AmountOf, Users, RowsMade, RowsKept;
    var kept, rest := KeptTxs(txs, splits, Users(desired), now), KeptSplits(splits, Users(desired));
    forall u, p | Linked(splits', u, p)
      ensures p in txs' && txs'[p].user == u && txs'[p].groupTx == Some(gid)
    {
      assert ServedBy(kept, rest, gid, u, AmountOf(desired, u), details, now, txs', splits'[u]);
      assert HasRow(rest, u) ==> Linked(splits, u, p);
    }
  }

  /** Rows of other shared transactions keep what they are. */
  lemma ServedElsewhere(
    txs: map<Uuid, Tx>, splits: map<Uuid, Split>, gid: Uuid, desired: seq<SplitInput>, details: Details, now: Time,
    txs': map<Uuid, Tx>, splits': map<Uuid, Split>, p: Uuid)
    requires LinksOk(txs, gid, splits) && p in txs && txs[p].groupTx != Some(gid)
    requires Served(txs, splits, gid, desired, details, now, txs', splits')
    ensures p in txs' && txs'[p] == txs[p]
  {
    hide AmountOf, Users, ServedBy, RowsMade;
    var kept, rest := KeptTxs(txs, splits, Users(desired), now), KeptSplits(splits, Users(desired));
    forall v
      ensures !Linked(splits, v, p) && !Linked(rest, v, p)
    {
      assert Linked(rest, v, p) ==> Linked(splits, v, p);
    }
    assert kept[p] == txs[p];
  }

  lemma AppliedLinks(db: Tables, gid: Uuid, desired: seq<SplitInput>, details: Details, now: Time, db': Tables)
    requires Links(db) && gid in db'.groupTxs
    requires SplitsApplied(db.txs, OldSplits(db, gid), gid, desired, details, now, db'.txs, db'.groupTxs[gid].splits)
    requires forall id :: id in db'.groupTxs && id != gid ==> id in db.groupTxs && db'.groupTxs[id] == db.groupTxs[id]
    ensures Links(db')
  {
    var before := OldSplits(db, gid);
    assert LinksOk(db.txs, gid, before);
    hide Served, AmountOf;
    ServedLinks(db.txs, before, gid, desired, details, now, db'.txs, db'.groupTxs[gid].splits);
    forall id | id in db'.groupTxs && id != gid
      ensures LinksOk(db'.txs, id, db'.groupTxs[id].splits)
    {
      assert LinksOk(db.txs, id, db.groupTxs[id].splits);
      forall u, p | Linked(db.groupTxs[id].splits, u, p)
        ensures p in db'.txs && db'.txs[p] == db.txs[p]
      {
        ServedElsewhere(db.txs, before, gid, desired, details, now, db'.txs, db'.groupTxs[gid].splits, p);
      }
    }
  }

  // ----- Every handler, every run -----

  lemma SharedLinks(db: Tables, c: Command, now: Time, db': Tables)
    requires Links(db) && Result(db, c, now) == Ok && Step(db, c, now, db')
    requires c.CreateGroupTx? || c.UpdateGroupTx?
    ensures Links(db')
  {
    hide Links, SplitsApplied, CreateGroupTxResult, UpdateGroupTxResult;
    match c
    case CreateGroupTx(_, _, req) => AppliedLinks(db, req.id, req.splits, req.details, now, db');
    case UpdateGroupTx(caller, g, id, req) =>
      assert id in db.groupTxs by { AcceptedUpdate(db, caller, g, id, req, now); }
      if |req.splits| == 0 {
        SameLinks(db, db');
      } else {
        AppliedLinks(db, id, req.splits, UpdatedRow(db.groupTxs[id], req, now).details, now, db');
      }
  }

  lemma UpdateSettlementLinks(db: Tables, c: Command, now: Time, db': Tables)
    requires Links(db) && Result(db, c, now) == Ok && Step(db, c, now, db') && c.UpdateSettlement?
    ensures Links(db')
  {
    hide Links, PairwiseDebt;
    if c.newAmount.Some? {
      var s := UpdatedSettlement(db.settlements[c.id], c.newAmount, c.newNotes, now);
      var updated := db.(settlements := db.settlements[c.id := s]);
      SameLinks(db, updated);
      HardDeleteLinks(updated, RowsOfSettlement(db.txs, c.id));
      SameLinks(Dropped(db, c.id, c.newAmount, c.newNotes, now), db');
    } else {
      SameLinks(db, db');
    }
  }

  lemma PurgeLinks(db: Tables, c: Command, now: Time, db': Tables)
    requires Links(db) && Step(db, c, now, db')
    requires c.PurgeTxs? || c.PurgeGroupTxs? || c.PurgeSettlements? || c.PurgeGroups?
    ensures Links(db')
  {
    hide Links, HardDeleted, WithoutGroupTxs, WithoutSettlements, WithoutGroups;
    match c
    case PurgeTxs => HardDeleteLinks(db, StaleTxs(db, now));
    case PurgeGroupTxs => WithoutGroupTxsLinks(db, StaleGroupTxs(db, now));
    case PurgeSettlements => WithoutSettlementsLinks(db, StaleSettlements(db, now));
    case PurgeGroups => WithoutGroupsLinks(db, StaleGroups(db, now));
  }

  /** The handlers that touch no split and take no row away. */
  predicate Plain(c: Command) {
    c.CreateGroup? || c.AddMember? || c.RemoveMember? || c.LeaveGroup? || c.DeleteGroup? || c.DeleteGroupTx?
    || c.CreateSettlement? || c.DeleteSettlement? || c.UpsertTx? || c.UpdateTx? || c.SetUser?
  }

  lemma PlainLinks(db: Tables, c: Command, now: Time, db': Tables)
    requires Links(db) && Step(db, c, now, db') && Plain(c)
    ensures Links(db')
  {
    hide Links, PairwiseDebt, UserGroupBalance;
    if Result(db, c, now) == Ok {
      SameLinks(db, db');
    }
  }

  lemma StepLinks(db: Tables, c: Command, now: Time, db': Tables)
    requires Links(db) && Step(db, c, now, db')
    ensures Links(db')
  {
    hide Links, Effect, Result;
    if Plain(c) {
      PlainLinks(db, c, now, db');
    } else if Result(db, c, now) == Ok {
      match c
      case CreateGroupTx(_, _, _) => SharedLinks(db, c, now, db');
      case UpdateGroupTx(_, _, _, _) => SharedLinks(db, c, now, db');
      case UpdateSettlement(_, _, _, _) => UpdateSettlementLinks(db, c, now, db');
      case DeleteTx(_, id) => DeleteTxLinks(db, c, now, db');
      case _ => PurgeLinks(db, c, now, db');
    }
  }

  lemma DeleteTxLinks(db: Tables, c: Command, now: Time, db': Tables)
    requires Links(db) && Result(db, c, now) == Ok && Step(db, c, now, db') && c.DeleteTx?
    ensures Links(db')
  {
    HardDeleteLinks(db, {c.id});
  }

  /** Whatever requests a run takes, its links are in order in every state. */
  lemma {:induction false} ReachableLinks(states: seq<Tables>, commands: seq<Command>, times: seq<Time>, i: nat)
    requires Run(states, commands, times) && i < |states|
    ensures Links(states[i])
  {
    hide Step;
    if i > 0 {
      ReachableLinks(states, commands, times, i - 1);
      hide Links;
      assert Step(states[i - 1], commands[i - 1], times[i - 1], states[i - 1 + 1]);
      StepLinks(states[i - 1], commands[i - 1], times[i - 1], states[i]);
    }
  }
}
