/** The life of a personal row: what an upsert makes of it, who may change it, and what leaves it alone. */
module PersonalRows {
  import opened Wrappers
  import opened Ledger
  import opened Handlers
  import opened GroupLedger
  import opened SplitLinks
  import opened RowSteps

  /** A live row of `user`, part of no shared transaction and of no settlement. */
  predicate OwnRow(db: Tables, id: Uuid, user: Uuid) {
    && id in db.txs && db.txs[id].user == user && !db.txs[id].isDeleted
    && db.txs[id].groupTx.None? && db.txs[id].settlement.None?
  }

  /** Only row `id` differs, if anything does. */
  ghost predicate OnlyRow(db: Tables, id: Uuid, db': Tables) {
    && db'.currencies == db.currencies && db'.groups == db.groups && db'.groupTxs == db.groupTxs
    && db'.settlements == db.settlements
    && (forall p :: p != id ==> (p in db'.txs <==> p in db.txs))
    && (forall p :: p != id && p in db.txs ==> db'.txs[p] == db.txs[p])
  }

  // ----- What an upsert writes -----

  /** An accepted upsert of a fresh id makes a live row of the caller's own, of what was sent. */
  lemma FreshUpsert(db: Tables, caller: Uuid, req: UpsertTxRequest, now: Time, db': Tables)
    requires req.id !in db.txs && UpsertTxResult(db, caller, req, now) == Ok
    requires Step(db, UpsertTx(caller, req), now, db')
    ensures OwnRow(db', req.id, caller) && OnlyRow(db, req.id, db')
    ensures var tx := db'.txs[req.id];
            && tx.kind == req.kind && tx.amount == Rounded(req.amount) > 0 && tx.details == req.details
            && (if req.updatedAt.Some? then tx.updatedAt == req.updatedAt.value else tx.updatedAt == now)
  {
    hide Rounded;
  }

  /** One of an existing id overwrites kind, amount, details and version, and leaves deletion, owner and
      links as they were. */
  lemma ExistingUpsert(db: Tables, caller: Uuid, req: UpsertTxRequest, now: Time, db': Tables)
    requires req.id in db.txs && UpsertTxResult(db, caller, req, now) == Ok
    requires Step(db, UpsertTx(caller, req), now, db')
    ensures OnlyRow(db, req.id, db') && req.id in db'.txs
    ensures var tx, tx' := db.txs[req.id], db'.txs[req.id];
            && tx'.user == tx.user == caller && tx'.isDeleted == tx.isDeleted
            && tx'.groupTx == tx.groupTx && tx'.settlement == tx.settlement
            && tx'.kind == req.kind && tx'.amount == Rounded(req.amount) > 0 && tx'.details == req.details
            && (if req.updatedAt.Some? then tx'.updatedAt == req.updatedAt.value else tx'.updatedAt == now)
            && tx.updatedAt <= tx'.updatedAt
  {
    hide Rounded;
  }

  /** Which upserts are accepted: positive amounts that do not round to nothing, for a fresh id or for a
      row of the caller's that is no newer. */
  lemma UpsertAcceptedIff(db: Tables, caller: Uuid, req: UpsertTxRequest, now: Time)
    ensures UpsertTxResult(db, caller, req, now) == Ok <==>
            && req.amount >= 0.5
            && (req.id in db.txs ==>
                  && db.txs[req.id].user == caller
                  && db.txs[req.id].updatedAt <= if req.updatedAt.Some? then req.updatedAt.value else now)
  {
    assert req.amount > 0.0 ==> (Storable(req.amount) <==> req.amount >= 0.5);
  }

  // ----- What its owner may do with it -----

  /** The owner of a live row outside shared transactions may update it in any orderly way and delete it;
      nobody else may. */
  lemma OwnRowIsOnesOwn(db: Tables, id: Uuid, owner: Uuid, caller: Uuid, req: UpdateTxRequest)
    requires id in db.txs && db.txs[id].user == owner && Free(db.txs[id])
    ensures DeleteTxResult(db, caller, id) == if caller == owner then Ok else Forbidden
    ensures caller != owner ==> UpdateTxResult(db, caller, id, req) == Forbidden
    ensures UpdateTxResult(db, owner, id, req) == Ok <==>
            && (req.amount.Some? ==> req.amount.value >= 0.5)
            && (req.kind.Some? || req.amount.Some? || req.patch.category.Some? || req.patch.date.Some?
                || req.patch.description.Some? || req.patch.notes.Some?)
  {
    if req.amount.Some? {
      assert req.amount.value > 0.0 ==> (Storable(req.amount.value) <==> req.amount.value >= 0.5);
    }
  }

  /** A delete takes the row, and nothing else. */
  lemma DeletedRowIsGone(db: Tables, caller: Uuid, id: Uuid, now: Time, db': Tables)
    requires OwnRow(db, id, caller) && Links(db) && Step(db, DeleteTx(caller, id), now, db')
    ensures id !in db'.txs && OnlyRow(db, id, db')
  {
    assert DeleteTxResult(db, caller, id) == Ok;
    assert db'.txs == db.txs - {id};
    forall gid | gid in db.groupTxs
      ensures db'.groupTxs[gid] == db.groupTxs[gid]
    {
      NoSplitLeadsThere(db, id, gid);
      NothingToUnlink(db.groupTxs[gid].splits, id);
    }
    assert db'.groupTxs.Keys == db.groupTxs.Keys;
  }

  lemma NothingToUnlink(splits: map<Uuid, Split>, id: Uuid)
    requires forall u :: u in splits ==> splits[u].txId != Some(id)
    ensures UnlinkedSplits(splits, {id}) == splits
  {
    forall u | u in splits
      ensures UnlinkedSplits(splits, {id})[u] == splits[u]
    {
      assert splits[u].txId.Some? ==> splits[u].txId == Some(splits[u].txId.value);
    }
  }

  lemma NoSplitLeadsThere(db: Tables, id: Uuid, gid: Uuid)
    requires Links(db) && id in db.txs && db.txs[id].groupTx.None? && gid in db.groupTxs
    ensures forall u :: u in db.groupTxs[gid].splits ==> db.groupTxs[gid].splits[u].txId != Some(id)
  {
    assert Splits.LinksOk(db.txs, gid, db.groupTxs[gid].splits);
    assert forall u :: u in db.groupTxs[gid].splits && db.groupTxs[gid].splits[u].txId == Some(id) ==>
                       Splits.Linked(db.groupTxs[gid].splits, u, id);
  }

  // ----- What leaves it alone -----

  /** The owner sends, updates or deletes the row. */
  predicate OwnersDoing(c: Command, id: Uuid, owner: Uuid) {
    || (c.UpsertTx? && c.caller == owner && c.upsert.id == id)
    || (c.UpdateTx? && c.caller == owner && c.id == id)
    || (c.DeleteTx? && c.caller == owner && c.id == id)
  }

  /** Nobody and nothing else changes it: no other user, no group, no settlement, and no purge at any
      time. */
  lemma OwnRowStays(db: Tables, c: Command, now: Time, db': Tables, id: Uuid, owner: Uuid)
    requires Links(db) && Step(db, c, now, db') && OwnRow(db, id, owner) && !OwnersDoing(c, id, owner)
    ensures OwnRow(db', id, owner) && db'.txs[id] == db.txs[id]
  {
    RowsStepIsAll(db, c, now, db');
    hide Step, Links;
  }

  /** So it stands through any run until its owner acts. */
  lemma {:induction false} OwnRowStands(
    states: seq<Tables>, commands: seq<Command>, times: seq<Time>, i: nat, n: nat, id: Uuid, owner: Uuid)
    requires Run(states, commands, times) && i <= n < |states| && OwnRow(states[i], id, owner)
    requires forall k :: i <= k < n ==> !OwnersDoing(commands[k], id, owner)
    ensures OwnRow(states[n], id, owner) && states[n].txs[id] == states[i].txs[id]
  {
    hide Step, Links, OwnRow, OwnersDoing;
    if i < n {
      OwnRowStands(states, commands, times, i, n - 1, id, owner);
      ReachableLinks(states, commands, times, n - 1);
      RunStep(states, commands, times, n);
      hide Run;
      OwnRowStays(states[n - 1], commands[n - 1], times[n - 1], states[n], id, owner);
    }
  }

  /** Whatever happens, a row outside settlements stays its user's for as long as it is there, and gets into
      no shared transaction and no settlement. */
  lemma RowsStayTheirUsers(db: Tables, c: Command, now: Time, db': Tables, p: Uuid)
    requires Links(db) && Step(db, c, now, db') && p in db.txs && p in db'.txs && db.txs[p].settlement.None?
    ensures db'.txs[p].user == db.txs[p].user
    ensures db.txs[p].groupTx.None? ==> db'.txs[p].groupTx.None?
    ensures db'.txs[p].settlement.None?
  {
    RowsStepIsAll(db, c, now, db');
    hide Step, Links, MayTouch, Inserted;
  }

  // ----- The purge -----

  /** The purge takes exactly the rows deleted more than a day ago. */
  lemma PurgeTakesIff(db: Tables, now: Time, db': Tables, p: Uuid)
    requires Step(db, PurgeTxs, now, db') && p in db.txs
    ensures p !in db'.txs <==> db.txs[p].isDeleted && db.txs[p].updatedAt + 24 * 60 * 60 < now
    ensures p in db'.txs ==> db'.txs[p] == db.txs[p]
  {
  }

  /** The purge of shared transactions and that of settlements likewise; the purge of groups takes exactly
      such groups, with all that is theirs. */
  lemma PurgesTakeIff(db: Tables, c: Command, now: Time, db': Tables)
    requires Step(db, c, now, db')
    ensures c.PurgeGroupTxs? ==> forall id :: id in db'.groupTxs <==>
              id in db.groupTxs && !(db.groupTxs[id].isDeleted && db.groupTxs[id].updatedAt + 24 * 60 * 60 < now)
    ensures c.PurgeSettlements? ==> forall id :: id in db'.settlements <==>
              id in db.settlements
              && !(db.settlements[id].isDeleted && db.settlements[id].updatedAt + 24 * 60 * 60 < now)
    ensures c.PurgeGroups? ==>
              && (forall g :: g in db'.groups <==>
                    g in db.groups && !(db.groups[g].isDeleted && db.groups[g].updatedAt + 24 * 60 * 60 < now))
              && (forall id :: id in db'.groupTxs <==>
                    && id in db.groupTxs
                    && (db.groupTxs[id].group in db.groups ==> db.groupTxs[id].group in db'.groups))
              && (forall id :: id in db'.settlements <==>
                    && id in db.settlements
                    && (db.settlements[id].group in db.groups ==> db.settlements[id].group in db'.groups))
  {
    hide CreateGroupTxResult, UpdateGroupTxResult, CreateSettlementResult, UpdateSettlementResult;
  }

  /** A row that a group deletes with its transaction is there for a day, and taken by the first purge
      after it. */
  lemma DeletedShareIsKeptADay(
    db: Tables, caller: Uuid, g: Uuid, gid: Uuid, t: Time, db1: Tables, later: Time, db2: Tables, p: Uuid)
    requires p in db.txs && db.txs[p].groupTx == Some(gid)
    requires DeleteGroupTxResult(db, caller, g, gid) == Ok && Step(db, DeleteGroupTx(caller, g, gid), t, db1)
    requires Step(db1, PurgeTxs, later, db2)
    ensures p in db1.txs && db1.txs[p].isDeleted
    ensures p in db2.txs <==> later <= t + 24 * 60 * 60
  {
    hide IsMember;
    assert db1.txs[p] == db.txs[p].(isDeleted := true, updatedAt := t);
    PurgeTakesIff(db1, later, db2, p);
  }
}
