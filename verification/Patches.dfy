/** What a patch changes and what it leaves: field by field, in the row it is about and in the personal rows
    that follow it. */
module Patches {
  import opened Wrappers
  import opened Ledger
  import opened Splits
  import opened Handlers
  import opened GroupLedger
  import opened SplitLinks
  import opened RowSteps

  /** A column after a request that may name it. */
  predicate Follows<T(==)>(named: Option<T>, before: T, after: T) {
    after == match named
             case Some(value) => value
             case None => before
  }

  /** A nullable column, which no request can clear. */
  predicate FollowsNullable<T(==)>(named: Option<T>, before: Option<T>, after: Option<T>) {
    after == match named
             case Some(value) => Some(value)
             case None => before
  }

  predicate DetailsFollow(p: Patch, before: Details, after: Details) {
    && Follows(p.category, before.category, after.category)
    && Follows(p.date, before.date, after.date)
    && FollowsNullable(p.description, before.description, after.description)
    && FollowsNullable(p.notes, before.notes, after.notes)
  }

  // ----- Shared transactions -----

  /** Payer, total and details of an updated transaction are what the request names and otherwise what they
      were; its group and its being live stay, and so does every other transaction. */
  predicate TxFollows(gt: GroupTx, req: UpdateGroupTxRequest, gt': GroupTx) {
    && Follows(req.paidBy, gt.paidBy, gt'.paidBy)
    && (if req.total.Some? then gt'.total == Rounded(req.total.value) else gt'.total == gt.total)
    && DetailsFollow(req.patch, gt.details, gt'.details)
    && gt'.group == gt.group && gt'.isDeleted == gt.isDeleted
  }

  lemma UpdatedTxFollows(
    db: Tables, caller: Uuid, g: Uuid, id: Uuid, req: UpdateGroupTxRequest, now: Time, db': Tables)
    requires UpdateGroupTxResult(db, caller, g, id, req, now) == Ok && UpdateGroupTxEffect(db, id, req, now, db')
    ensures id in db.groupTxs && db'.groupTxs.Keys == db.groupTxs.Keys
    ensures TxFollows(db.groupTxs[id], req, db'.groupTxs[id])
    ensures Follows(req.updatedAt, now, db'.groupTxs[id].updatedAt)
    ensures req.splits == [] ==> db'.groupTxs[id].splits == db.groupTxs[id].splits
    ensures forall other :: other in db.groupTxs && other != id ==> db'.groupTxs[other] == db.groupTxs[other]
    ensures db'.groups == db.groups && db'.settlements == db.settlements && db'.currencies == db.currencies
  {
    hide UpdateGroupTxResult, SplitsApplied, SyncedTxs, Rounded;
    AcceptedUpdate(db, caller, g, id, req, now);
  }

  /** Without splits its live personal rows follow the patch, and keep their user, kind and amount; every
      other row stays as it is. */
  lemma SyncedRowsFollow(
    db: Tables, caller: Uuid, g: Uuid, id: Uuid, req: UpdateGroupTxRequest, now: Time, db': Tables)
    requires req.splits == []
    requires UpdateGroupTxResult(db, caller, g, id, req, now) == Ok && UpdateGroupTxEffect(db, id, req, now, db')
    ensures db'.txs.Keys == db.txs.Keys
    ensures forall p :: p in db.txs && db.txs[p].groupTx == Some(id) && !db.txs[p].isDeleted ==>
              && DetailsFollow(req.patch, db.txs[p].details, db'.txs[p].details)
              && db.txs[p] == db'.txs[p].(details := db.txs[p].details, updatedAt := db.txs[p].updatedAt)
    ensures forall p :: p in db.txs && (db.txs[p].groupTx != Some(id) || db.txs[p].isDeleted) ==>
              db'.txs[p] == db.txs[p]
  {
    AcceptedUpdate(db, caller, g, id, req, now);
    hide UpdateGroupTxResult;
  }

  /** With splits, the row of each user asked for is live and has the details the transaction has now. */
  lemma SharedRowsFollow(
    db: Tables, caller: Uuid, g: Uuid, id: Uuid, req: UpdateGroupTxRequest, now: Time, db': Tables, u: Uuid)
    requires Links(db) && req.splits != [] && u in Users(req.splits)
    requires UpdateGroupTxResult(db, caller, g, id, req, now) == Ok && UpdateGroupTxEffect(db, id, req, now, db')
    ensures id in db'.groupTxs && u in db'.groupTxs[id].splits && db'.groupTxs[id].splits[u].txId.Some?
    ensures var gt, p := db'.groupTxs[id], db'.groupTxs[id].splits[u].txId.value;
            && p in db'.txs && !db'.txs[p].isDeleted && db'.txs[p].details == gt.details
            && db'.txs[p].amount == gt.splits[u].amount == AmountOf(req.splits, u)
  {
    AcceptedUpdate(db, caller, g, id, req, now);
    assert LinksOk(db.txs, id, db.groupTxs[id].splits);
    hide UpdateGroupTxResult, RowsMade, RowsKept, AmountOf, LinksOk;
    var gt' := db'.groupTxs[id];
    var keep := Users(req.splits);
    var kept, rest := KeptTxs(db.txs, db.groupTxs[id].splits, keep, now), KeptSplits(db.groupTxs[id].splits, keep);
    assert ServedBy(kept, rest, id, u, AmountOf(req.splits, u), gt'.details, now, db'.txs, gt'.splits[u]);
  }

  // ----- Personal rows -----

  /** Kind, amount and details of an updated row are what the request names and otherwise what they were;
      the rest of it, and every other row, stays. */
  lemma UpdatedRowFollows(db: Tables, caller: Uuid, id: Uuid, req: UpdateTxRequest, now: Time, db': Tables)
    requires UpdateTxResult(db, caller, id, req) == Ok && Step(db, UpdateTx(caller, id, req), now, db')
    ensures id in db.txs && db'.txs.Keys == db.txs.Keys && db' == db.(txs := db'.txs)
    ensures var tx, tx' := db.txs[id], db'.txs[id];
            && Follows(req.kind, tx.kind, tx'.kind)
            && (if req.amount.Some? then tx'.amount == Rounded(req.amount.value) else tx'.amount == tx.amount)
            && DetailsFollow(req.patch, tx.details, tx'.details)
            && tx'.user == tx.user && tx'.groupTx == tx.groupTx && tx'.settlement == tx.settlement
            && !tx'.isDeleted && tx'.updatedAt == now
    ensures forall p :: p in db.txs && p != id ==> db'.txs[p] == db.txs[p]
  {
    hide Rounded;
  }

  // ----- Settlements -----

  /** Amount and notes of an updated settlement are what the request names and otherwise what they were; its
      parties and its group, and every other settlement, stay. */
  lemma UpdatedSettlementFollows(
    db: Tables, caller: Uuid, id: Uuid, amount: Option<Amount>, notes: Option<string>, now: Time, db': Tables)
    requires Result(db, UpdateSettlement(caller, id, amount, notes), now) == Ok
    requires Step(db, UpdateSettlement(caller, id, amount, notes), now, db')
    ensures id in db.settlements && db'.settlements.Keys == db.settlements.Keys
    ensures var s, s' := db.settlements[id], db'.settlements[id];
            && (if amount.Some? then s'.amount == Rounded(amount.value) else s'.amount == s.amount)
            && FollowsNullable(notes, s.notes, s'.notes)
            && s'.group == s.group && s'.from == s.from && s'.to == s.to && !s'.isDeleted && s'.updatedAt == now
    ensures forall other :: other in db.settlements && other != id ==> db'.settlements[other] == db.settlements[other]
  {
    hide RewriteSettlementResult, PairwiseDebt, PairBooked, Rounded, UnlinkedSplits;
  }

  /** A personal row that a settlement has booked says so, with the settlement's notes. */
  predicate Notes(tx: Tx, s: Settlement, now: Time) {
    && tx.details.category == "other" && tx.details.date == now && tx.details.notes == s.notes
    && tx.details.description ==
         Some(if tx.kind.Income? then "Settlement excess received" else "Settlement excess paid")
  }

  /** After an update of the amount its rows carry its notes, named or not. */
  lemma RebookedRowsFollow(
    db: Tables, caller: Uuid, id: Uuid, amount: Amount, notes: Option<string>, now: Time, db': Tables, p: Uuid)
    requires Result(db, UpdateSettlement(caller, id, Some(amount), notes), now) == Ok
    requires Step(db, UpdateSettlement(caller, id, Some(amount), notes), now, db')
    requires p in db'.txs && db'.txs[p].settlement == Some(id)
    ensures Notes(db'.txs[p], db'.settlements[id], now)
  {
    hide RewriteSettlementResult, PairwiseDebt, Rounded, UnlinkedSplits, Excess;
  }

  lemma CreatedRowsFollow(
    db: Tables, caller: Uuid, id: Uuid, g: Uuid, from: Uuid, to: Uuid, amount: Amount, notes: Option<string>,
    now: Time, db': Tables, p: Uuid)
    requires Result(db, CreateSettlement(caller, id, g, from, to, amount, notes), now) == Ok
    requires Step(db, CreateSettlement(caller, id, g, from, to, amount, notes), now, db')
    requires p in db'.txs && p !in db.txs
    ensures db'.txs[p].settlement == Some(id) && Notes(db'.txs[p], db'.settlements[id], now)
    ensures db'.settlements[id] == Settlement(g, from, to, Rounded(amount), notes, false, now)
  {
    hide CreateSettlementResult, PairwiseDebt, Rounded, Excess;
  }

  /** After one of the notes alone its live rows have the new notes, and otherwise stay as they are; so does
      every other row. */
  lemma NotedRowsFollow(
    db: Tables, caller: Uuid, id: Uuid, notes: string, now: Time, db': Tables)
    requires Result(db, UpdateSettlement(caller, id, None, Some(notes)), now) == Ok
    requires Step(db, UpdateSettlement(caller, id, None, Some(notes)), now, db')
    ensures db'.txs.Keys == db.txs.Keys
    ensures forall p :: p in db.txs && db.txs[p].settlement == Some(id) && !db.txs[p].isDeleted ==>
              && db'.txs[p].details.notes == Some(notes)
              && db.txs[p] == db'.txs[p].(details := db'.txs[p].details.(notes := db.txs[p].details.notes),
                                          updatedAt := db.txs[p].updatedAt)
    ensures forall p :: p in db.txs && (db.txs[p].settlement != Some(id) || db.txs[p].isDeleted) ==>
              db'.txs[p] == db.txs[p]
  {
    hide PairwiseDebt, PairBooked;
  }
}
