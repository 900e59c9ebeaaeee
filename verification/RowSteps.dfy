/** What one handler call may do to the personal rows: which rows it may touch, what it leaves of those it
    touches, and what the rows it inserts are. */
module RowSteps {
  import opened Wrappers
  import opened Ledger
  import opened Splits
  import opened Handlers
  import opened GroupLedger
  import opened SplitLinks

  /** Nothing but these changes a row `tx` with id `p`, or takes it away. */
  predicate MayTouch(db: Tables, c: Command, now: Time, p: Uuid, tx: Tx) {
    match c
    case UpsertTx(caller, req) => req.id == p && caller == tx.user
    case UpdateTx(caller, id, _) => id == p && caller == tx.user && Free(tx)
    case DeleteTx(caller, id) => id == p && caller == tx.user && Free(tx)
    case CreateGroupTx(_, _, req) => tx.groupTx == Some(req.id)
    case UpdateGroupTx(_, _, id, _) => tx.groupTx == Some(id)
    case DeleteGroupTx(_, _, id) => tx.groupTx == Some(id)
    case DeleteGroup(_, g) =>
      tx.groupTx.Some? && tx.groupTx.value in db.groupTxs && db.groupTxs[tx.groupTx.value].group == g
    case UpdateSettlement(_, id, _, _) => tx.settlement == Some(id)
    case DeleteSettlement(_, id) => tx.settlement == Some(id)
    case PurgeTxs => tx.isDeleted && tx.updatedAt < now - 24 * 60 * 60
    case PurgeGroupTxs => tx.groupTx.Some?
    case PurgeSettlements => tx.settlement.Some?
    case PurgeGroups => tx.groupTx.Some? || tx.settlement.Some?
    case _ => false
  }

  /** A live row outside shared transactions. */
  predicate Free(tx: Tx) {
    tx.groupTx.None? && !tx.isDeleted
  }

  /** The caller's own upsert or update of the row. */
  predicate Rewrites(c: Command, p: Uuid, tx: Tx) {
    || (c.UpsertTx? && c.upsert.id == p && c.caller == tx.user)
    || (c.UpdateTx? && c.id == p && c.caller == tx.user && Free(tx))
  }

  /** A row stays its user's, keeps its kind unless that user rewrites it, and its links until what they
      lead to is purged; and a change carries its time, or for an upsert the time it was sent with. */
  predicate Retained(c: Command, now: Time, p: Uuid, tx: Tx, tx': Tx) {
    && tx'.user == tx.user
    && (tx'.kind == tx.kind || Rewrites(c, p, tx))
    && (tx'.groupTx == tx.groupTx || (tx'.groupTx.None? && (c.PurgeGroupTxs? || c.PurgeGroups?)))
    && (tx'.settlement == tx.settlement || (tx'.settlement.None? && (c.PurgeSettlements? || c.PurgeGroups?)))
    && (tx' == tx.(groupTx := tx'.groupTx, settlement := tx'.settlement) || tx'.updatedAt == SentAt(c, now))
  }

  function SentAt(c: Command, now: Time): Time {
    if c.UpsertTx? && c.upsert.updatedAt.Some? then c.upsert.updatedAt.value else now
  }

  /** The rows a command inserts: a live row of the sender's own, a member's live expense for a share, or a
      live row for a party of a settlement. */
  predicate Inserted(db: Tables, c: Command, now: Time, p: Uuid, tx: Tx) {
    && !tx.isDeleted && tx.updatedAt == SentAt(c, now)
    && match c
       case UpsertTx(caller, req) =>
         && req.id == p && tx.user == caller && tx.kind == req.kind && tx.amount == Rounded(req.amount)
         && tx.details == req.details && tx.groupTx.None? && tx.settlement.None?
       case CreateGroupTx(_, _, req) => IsShare(tx, req.id, req.splits)
       case UpdateGroupTx(_, _, id, req) => IsShare(tx, id, req.splits)
       case CreateSettlement(_, id, _, from, to, _, _) => IsExcess(tx, id, from, to)
       case UpdateSettlement(_, id, _, _) =>
         id in db.settlements && IsExcess(tx, id, db.settlements[id].from, db.settlements[id].to)
       case _ => false
  }

  predicate IsShare(tx: Tx, gid: Uuid, splits: seq<SplitInput>) {
    && tx.kind == Expense && tx.groupTx == Some(gid) && tx.settlement.None? && tx.user in Users(splits)
    && exists s :: s in splits && s.user == tx.user && tx.amount == Rounded(s.amount)
  }

  predicate IsExcess(tx: Tx, sid: Uuid, from: Uuid, to: Uuid) {
    tx.groupTx.None? && tx.settlement == Some(sid) && tx.user == if tx.kind.Income? then to else from
  }

  /** A new amount drops the rows of its settlement and books others, for which their ids are free. */
  predicate Rebooked(c: Command, tx: Tx) {
    c.UpdateSettlement? && c.newAmount.Some? && tx.settlement == Some(c.id)
  }

  /** All this, for every row. */
  ghost predicate RowsStep(db: Tables, c: Command, now: Time, db': Tables) {
    && (forall p :: p in db.txs ==> MayTouch(db, c, now, p, db.txs[p]) || (p in db'.txs && db'.txs[p] == db.txs[p]))
    && (forall p :: p in db.txs && p in db'.txs ==>
          Retained(c, now, p, db.txs[p], db'.txs[p])
          || (Rebooked(c, db.txs[p]) && Inserted(db, c, now, p, db'.txs[p])))
    && (forall p :: p in db'.txs && p !in db.txs ==> Inserted(db, c, now, p, db'.txs[p]))
  }

  // ----- Reconciled rows -----

  /** What reconciliation leaves of a row. */
  lemma ServedOldRow(
    txs: map<Uuid, Tx>, splits: map<Uuid, Split>, gid: Uuid, desired: seq<SplitInput>, details: Details, now: Time,
    txs': map<Uuid, Tx>, splits': map<Uuid, Split>, p: Uuid)
    requires p in txs && Served(txs, splits, gid, desired, details, now, txs', splits')
    ensures p in txs'
    ensures var tx, tx' := txs[p], txs'[p];
            && tx'.user == tx.user && tx'.kind == tx.kind && tx'.groupTx == tx.groupTx
            && tx'.settlement == tx.settlement && (tx' == tx || tx'.updatedAt == now)
  {
    hide AmountOf, Users, RowsMade;
    var kept, rest := KeptTxs(txs, splits, Users(desired), now), KeptSplits(splits, Users(desired));
    if u :| u in Users(desired) && Linked(rest, u, p) {
      assert ServedBy(kept, rest, gid, u, AmountOf(desired, u), details, now, txs', splits'[u]);
    } else {
      assert txs'[p] == kept[p];
    }
  }

  /** A new row is a share of one of the users asked for. */
  lemma ServedNewRow(
    txs: map<Uuid, Tx>, splits: map<Uuid, Split>, gid: Uuid, desired: seq<SplitInput>, details: Details, now: Time,
    txs': map<Uuid, Tx>, splits': map<Uuid, Split>, p: Uuid)
    requires p in txs' && p !in txs && Served(txs, splits, gid, desired, details, now, txs', splits')
    ensures IsShare(txs'[p], gid, desired) && !txs'[p].isDeleted && txs'[p].details == details
    ensures txs'[p].updatedAt == now
  {
    hide AmountOf, ServedBy, RowsKept, Rounded;
    var kept, rest := KeptTxs(txs, splits, Users(desired), now), KeptSplits(splits, Users(desired));
    var made: map<nat, Uuid> :| RowsMade(made, kept, rest, gid, desired, details, now, txs');
    var i := MadeFor(made, kept, rest, gid, desired, details, now, txs', p);
    hide AllServed, KeptTxs, KeptSplits;
    assert desired[i] in desired;
  }

  lemma SharedRowsStep(db: Tables, c: Command, now: Time, db': Tables)
    requires Links(db) && Result(db, c, now) == Ok && Step(db, c, now, db')
    requires c.CreateGroupTx? || c.UpdateGroupTx?
    ensures RowsStep(db, c, now, db')
  {
    hide CreateGroupTxResult, UpdateGroupTxResult, Served, AmountOf, Users, IsShare;
    if c.UpdateGroupTx? && |c.update.splits| == 0 {
      assert c.id in db.groupTxs by { AcceptedUpdate(db, c.caller, c.g, c.id, c.update, now); }
    } else {
      var gid, desired := (if c.CreateGroupTx? then c.create.id else c.id),
          if c.CreateGroupTx? then c.create.splits else c.update.splits;
      if c.UpdateGroupTx? {
        AcceptedUpdate(db, c.caller, c.g, c.id, c.update, now);
      }
      var details := if c.CreateGroupTx? then c.create.details
          else UpdatedRow(db.groupTxs[c.id], c.update, now).details;
      var before, after := OldSplits(db, gid), db'.groupTxs[gid].splits;
      assert LinksOk(db.txs, gid, before);
      assert Served(db.txs, before, gid, desired, details, now, db'.txs, after);
      hide Step, Links, LinksOk, Result;
      forall p | p in db.txs
        ensures p in db'.txs && Retained(c, now, p, db.txs[p], db'.txs[p])
        ensures MayTouch(db, c, now, p, db.txs[p]) || db'.txs[p] == db.txs[p]
      {
        ServedOldRow(db.txs, before, gid, desired, details, now, db'.txs, after, p);
        if db.txs[p].groupTx != Some(gid) {
          ServedElsewhere(db.txs, before, gid, desired, details, now, db'.txs, after, p);
        }
      }
      forall p | p in db'.txs && p !in db.txs
        ensures Inserted(db, c, now, p, db'.txs[p])
      {
        ServedNewRow(db.txs, before, gid, desired, details, now, db'.txs, after, p);
      }
    }
  }

  // ----- The other handlers -----

  lemma PairRows(txs: map<Uuid, Tx>, sid: Uuid, s: Settlement, excess: Cents, now: Time, txs': map<Uuid, Tx>)
    requires PairBooked(txs, sid, s, excess, now, txs')
    ensures forall p :: p in txs ==> p in txs' && txs'[p] == txs[p]
    ensures forall p :: p in txs' && p !in txs ==>
              IsExcess(txs'[p], sid, s.from, s.to) && !txs'[p].isDeleted && txs'[p].updatedAt == now
  {
  }

  lemma SettlementRowsStep(db: Tables, c: Command, now: Time, db': Tables)
    requires Result(db, c, now) == Ok && Step(db, c, now, db')
    requires c.CreateSettlement? || c.UpdateSettlement? || c.DeleteSettlement?
    ensures RowsStep(db, c, now, db')
  {
    hide PairwiseDebt, PairBooked, IsExcess, Excess;
    if c.CreateSettlement? {
      var s := Settlement(c.g, c.from, c.to, Rounded(c.amount), c.notes, false, now);
      PairRows(db.txs, c.id, s, Excess(DebtRead(db, c.id, s), s.amount), now, db'.txs);
    } else if c.UpdateSettlement? && c.newAmount.Some? {
      var s := UpdatedSettlement(db.settlements[c.id], c.newAmount, c.newNotes, now);
      var dropped := Dropped(db, c.id, c.newAmount, c.newNotes, now);
      PairRows(dropped.txs, c.id, s, Excess(DebtWithout(dropped, c.id, s), s.amount), now, db'.txs);
      DroppedRows(db, c, now, db');
    }
  }

  /** The rows dropped are the settlement's, and a row booked afresh is its own. */
  lemma DroppedRows(db: Tables, c: Command, now: Time, db': Tables)
    requires c.UpdateSettlement? && c.newAmount.Some? && c.id in db.settlements
    requires var kept := Dropped(db, c.id, c.newAmount, c.newNotes, now).txs;
             && (forall p :: p in kept ==> p in db'.txs && db'.txs[p] == kept[p])
             && (forall p :: p in db'.txs && p !in kept ==>
                   IsExcess(db'.txs[p], c.id, db.settlements[c.id].from, db.settlements[c.id].to)
                   && !db'.txs[p].isDeleted && db'.txs[p].updatedAt == now)
    ensures RowsStep(db, c, now, db')
  {
  }

  lemma PurgeRowsStep(db: Tables, c: Command, now: Time, db': Tables)
    requires Step(db, c, now, db')
    requires c.PurgeTxs? || c.PurgeGroupTxs? || c.PurgeSettlements? || c.PurgeGroups?
    ensures RowsStep(db, c, now, db')
  {
    hide IsShare, IsExcess, StaleGroupTxs, StaleSettlements, StaleGroups;
  }

  lemma GroupRowsStep(db: Tables, c: Command, now: Time, db': Tables)
    requires Result(db, c, now) == Ok && Step(db, c, now, db')
    requires c.CreateGroup? || c.AddMember? || c.RemoveMember? || c.LeaveGroup? || c.DeleteGroup? || c.DeleteGroupTx?
             || c.SetUser?
    ensures RowsStep(db, c, now, db')
  {
    hide UserGroupBalance;
  }

  lemma PersonalRowsStep(db: Tables, c: Command, now: Time, db': Tables)
    requires Result(db, c, now) == Ok && Step(db, c, now, db')
    requires c.UpsertTx? || c.UpdateTx? || c.DeleteTx?
    ensures RowsStep(db, c, now, db')
  {
  }

  /** Every command, in every state whose links are in order, as they are in every reachable one. */
  lemma RowsStepIsAll(db: Tables, c: Command, now: Time, db': Tables)
    requires Links(db) && Step(db, c, now, db')
    ensures RowsStep(db, c, now, db')
  {
    hide Links, Result, Effect, RowsStep;
    if Result(db, c, now) != Ok {
      NothingHappened(db, c, now, db');
    } else {
      match c
      case CreateGroupTx(_, _, _) => SharedRowsStep(db, c, now, db');
      case UpdateGroupTx(_, _, _, _) => SharedRowsStep(db, c, now, db');
      case CreateSettlement(_, _, _, _, _, _, _) => SettlementRowsStep(db, c, now, db');
      case UpdateSettlement(_, _, _, _) => SettlementRowsStep(db, c, now, db');
      case DeleteSettlement(_, _) => SettlementRowsStep(db, c, now, db');
      case UpsertTx(_, _) => PersonalRowsStep(db, c, now, db');
      case UpdateTx(_, _, _) => PersonalRowsStep(db, c, now, db');
      case DeleteTx(_, _) => PersonalRowsStep(db, c, now, db');
      case PurgeTxs => PurgeRowsStep(db, c, now, db');
      case PurgeGroupTxs => PurgeRowsStep(db, c, now, db');
      case PurgeSettlements => PurgeRowsStep(db, c, now, db');
      case PurgeGroups => PurgeRowsStep(db, c, now, db');
      case _ => GroupRowsStep(db, c, now, db');
    }
  }

  lemma NothingHappened(db: Tables, c: Command, now: Time, db': Tables)
    requires Result(db, c, now) != Ok && Step(db, c, now, db')
    ensures RowsStep(db, c, now, db')
  {
    hide Result, Inserted, MayTouch;
  }
}
