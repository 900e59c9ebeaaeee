/** Of which kind the rows of shared transactions are: expenses, as long as nobody says otherwise, and then
    a user's live ones add up to the user's shares. */
module RowKinds {
  import opened Wrappers
  import opened Sums
  import opened Ledger
  import opened Splits
  import opened Handlers
  import opened GroupLedger
  import opened SplitLinks
  import opened RowSteps

  /** Every row of a shared transaction, deleted ones included, is an expense. */
  ghost predicate SharesAreExpenses(db: Tables) {
    forall p :: p in db.txs && db.txs[p].groupTx.Some? ==> db.txs[p].kind == Expense
  }

  /** The upsert would give a row of a shared transaction another kind; the row may be a deleted one. */
  predicate ChangesKind(db: Tables, c: Command) {
    && c.UpsertTx? && c.upsert.id in db.txs && db.txs[c.upsert.id].groupTx.Some?
    && c.upsert.kind != db.txs[c.upsert.id].kind
  }

  lemma KindsStep(db: Tables, c: Command, now: Time, db': Tables)
    requires Links(db) && SharesAreExpenses(db) && Step(db, c, now, db') && !ChangesKind(db, c)
    ensures SharesAreExpenses(db')
  {
    hide Step, Links, MayTouch, ChangesKind;
    RowsStepIsAll(db, c, now, db');
    if c.UpsertTx? {
      UpsertKeepsKind(db, c, now, db');
    }
  }

  lemma UpsertKeepsKind(db: Tables, c: Command, now: Time, db': Tables)
    requires Step(db, c, now, db') && !ChangesKind(db, c) && c.UpsertTx?
    ensures forall p :: p in db.txs && p in db'.txs && db.txs[p].groupTx.Some? ==> db'.txs[p].kind == db.txs[p].kind
  {
  }

  /** An accepted upsert keeps it if and only if it is not one of those. */
  lemma AcceptedUpsertKeepsKindsIff(db: Tables, caller: Uuid, req: UpsertTxRequest, now: Time, db': Tables)
    requires SharesAreExpenses(db)
    requires UpsertTxResult(db, caller, req, now) == Ok && Step(db, UpsertTx(caller, req), now, db')
    ensures SharesAreExpenses(db') <==> !ChangesKind(db, UpsertTx(caller, req))
  {
    hide Rounded;
    assert req.id in db'.txs;
  }

  ghost predicate KindsKept(states: seq<Tables>, commands: seq<Command>) {
    |states| > |commands| && forall i :: 0 <= i < |commands| ==> !ChangesKind(states[i], commands[i])
  }

  /** In every state of a run without such an upsert, every row of a shared transaction is an expense. */
  lemma {:induction false} ReachableKinds(states: seq<Tables>, commands: seq<Command>, times: seq<Time>, i: nat)
    requires Run(states, commands, times) && KindsKept(states, commands) && i < |states|
    ensures SharesAreExpenses(states[i])
  {
    hide Step, Links, ChangesKind;
    if i > 0 {
      ReachableKinds(states, commands, times, i - 1);
      ReachableLinks(states, commands, times, i - 1);
      RunStep(states, commands, times, i);
      hide Run, SharesAreExpenses;
      KindsStep(states[i - 1], commands[i - 1], times[i - 1], states[i]);
    }
  }

  /** A shared transaction that is sent again brings its deleted rows back as they are, so with the kind
      an upsert gave them in the meantime. */
  lemma RevivedRowKeepsKind(
    db: Tables, caller: Uuid, g: Uuid, req: CreateGroupTxRequest, now: Time, db': Tables, u: Uuid, p: Uuid)
    requires Links(db) && req.id in db.groupTxs
    requires Linked(db.groupTxs[req.id].splits, u, p) && u in Users(req.splits)
    requires CreateGroupTxResult(db, caller, g, req, now) == Ok && CreateGroupTxEffect(db, g, req, now, db')
    ensures p in db.txs && p in db'.txs && !db'.txs[p].isDeleted
    ensures db'.txs[p].groupTx == Some(req.id) && db'.txs[p].kind == db.txs[p].kind
  {
    hide CreateGroupTxResult, RowsMade, RowsKept, AmountOf;
    var txs, before, desired := db.txs, OldSplits(db, req.id), req.splits;
    assert LinksOk(txs, req.id, before);
    var kept, rest := KeptTxs(txs, before, Users(desired), now), KeptSplits(before, Users(desired));
    assert ServedBy(
        kept, rest, req.id, u, AmountOf(desired, u), req.details, now, db'.txs, db'.groupTxs[req.id].splits[u]);
  }

  // ----- A user's expenses are the user's shares -----

  /** What row `p` adds to the live expenses of `u` for live transactions of the group. */
  function ExpenseTerm(db: Tables, g: Uuid, u: Uuid): Uuid -> int {
    (p: Uuid) => if IsExpenseFor(db, g, u, p) then db.txs[p].amount else 0
  }

  predicate IsExpenseFor(db: Tables, g: Uuid, u: Uuid, p: Uuid) {
    && p in db.txs && db.txs[p].user == u && db.txs[p].kind == Expense && !db.txs[p].isDeleted
    && db.txs[p].groupTx.Some? && LiveTx(db.groupTxs, g, db.txs[p].groupTx.value)
  }

  predicate HasShare(gts: map<Uuid, GroupTx>, g: Uuid, u: Uuid, id: Uuid) {
    LiveTx(gts, g, id) && u in gts[id].splits
  }

  /** The row of a share, and the share of a row. */
  lemma ShareHasRow(db: Tables, g: Uuid, u: Uuid, id: Uuid)
    requires Inv(db) && SharesAreExpenses(db) && HasShare(db.groupTxs, g, u, id)
    ensures var split := db.groupTxs[id].splits[u];
            && split.txId.Some? && IsExpenseFor(db, g, u, split.txId.value)
            && db.txs[split.txId.value].groupTx == Some(id)
            && OwedTerm(db.groupTxs, g, u)(id) == ExpenseTerm(db, g, u)(split.txId.value)
  {
    hide Inv;
    RowsMirrorSplits(db, id);
    assert SplitAmounts(db.groupTxs[id].splits)(u) == db.groupTxs[id].splits[u].amount;
  }

  lemma RowHasShare(db: Tables, g: Uuid, u: Uuid, p: Uuid)
    requires Inv(db) && IsExpenseFor(db, g, u, p)
    ensures var id := db.txs[p].groupTx.value;
            HasShare(db.groupTxs, g, u, id) && db.groupTxs[id].splits[u].txId == Some(p)
  {
    hide Inv;
    RowsMirrorSplits(db, db.txs[p].groupTx.value);
  }

  ghost function RowOfShare(gts: map<Uuid, GroupTx>, g: Uuid, u: Uuid): map<Uuid, Uuid> {
    map id | id in gts && HasShare(gts, g, u, id) && gts[id].splits[u].txId.Some? :: gts[id].splits[u].txId.value
  }

  ghost function ShareOfRow(db: Tables, g: Uuid, u: Uuid): map<Uuid, Uuid> {
    map p | p in db.txs && IsExpenseFor(db, g, u, p) :: db.txs[p].groupTx.value
  }

  /** Shares and rows correspond, with equal amounts. */
  lemma SharesAndRows(db: Tables, g: Uuid, u: Uuid)
    requires Inv(db) && SharesAreExpenses(db)
    ensures var to, back := RowOfShare(db.groupTxs, g, u), ShareOfRow(db, g, u);
            && (forall id :: id in db.groupTxs && HasShare(db.groupTxs, g, u, id) ==> id in to)
            && (forall id :: id in to ==> to[id] in back && back[to[id]] == id)
            && (forall id :: id in to ==> OwedTerm(db.groupTxs, g, u)(id) == ExpenseTerm(db, g, u)(to[id]))
            && (forall p :: p in back ==> back[p] in to && to[back[p]] == p)
  {
    hide Inv, SharesAreExpenses;
    forall id | id in db.groupTxs && HasShare(db.groupTxs, g, u, id)
      ensures var split := db.groupTxs[id].splits[u];
              && split.txId.Some? && IsExpenseFor(db, g, u, split.txId.value)
              && db.txs[split.txId.value].groupTx == Some(id)
              && OwedTerm(db.groupTxs, g, u)(id) == ExpenseTerm(db, g, u)(split.txId.value)
    {
      ShareHasRow(db, g, u, id);
    }
    forall p | p in db.txs && IsExpenseFor(db, g, u, p)
      ensures var id := db.txs[p].groupTx.value;
              HasShare(db.groupTxs, g, u, id) && db.groupTxs[id].splits[u].txId == Some(p)
    {
      RowHasShare(db, g, u, p);
    }
  }

  /** A user's live expense rows for a group's live transactions add up to what the balance counts as
      owed by the user. */
  lemma ExpensesAreShares(db: Tables, g: Uuid, u: Uuid)
    requires Inv(db) && SharesAreExpenses(db)
    ensures Sum(db.txs.Keys, ExpenseTerm(db, g, u)) == Sum(db.groupTxs.Keys, OwedTerm(db.groupTxs, g, u))
  {
    var gts := db.groupTxs;
    var to, back := RowOfShare(gts, g, u), ShareOfRow(db, g, u);
    SharesAndRows(db, g, u);
    hide Inv, SharesAreExpenses, IsExpenseFor;
    SumMatch(to.Keys, OwedTerm(gts, g, u), back.Keys, ExpenseTerm(db, g, u), to, back);
    SumWiden(to.Keys, gts.Keys, OwedTerm(gts, g, u));
    SumWiden(back.Keys, db.txs.Keys, ExpenseTerm(db, g, u));
  }

  /** So in every state of a careful run that keeps the kinds a user's booked expenses are what the
      user's balance counts against the user. */
  lemma ReachableExpenses(
    states: seq<Tables>, commands: seq<Command>, times: seq<Time>, i: nat, g: Uuid, u: Uuid)
    requires Run(states, commands, times) && AllCareful(states, commands) && KindsKept(states, commands)
    requires i < |states|
    ensures var db := states[i];
            Sum(db.txs.Keys, ExpenseTerm(db, g, u)) == Sum(db.groupTxs.Keys, OwedTerm(db.groupTxs, g, u))
  {
    ReachableInv(states, commands, times, i);
    ReachableKinds(states, commands, times, i);
    hide Run, AllCareful, KindsKept, Inv, SharesAreExpenses, Sum;
    ExpensesAreShares(states[i], g, u);
  }
}
