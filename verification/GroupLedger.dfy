/** The tables as a state machine over the handlers, what every reachable state has, and exactly
    which accepted requests break it. */
module GroupLedger {
  import opened Wrappers
  import opened Sums
  import opened Ledger
  import opened Balances
  import opened Splits
  import opened Handlers

  datatype Command =
    | CreateGroup(caller: Uuid, g: Uuid)
    | AddMember(caller: Uuid, g: Uuid, user: Uuid)
    | RemoveMember(caller: Uuid, g: Uuid, user: Uuid)
    | LeaveGroup(caller: Uuid, g: Uuid)
    | DeleteGroup(caller: Uuid, g: Uuid)
    | CreateGroupTx(caller: Uuid, g: Uuid, create: CreateGroupTxRequest)
    | UpdateGroupTx(caller: Uuid, g: Uuid, id: Uuid, update: UpdateGroupTxRequest)
    | DeleteGroupTx(caller: Uuid, g: Uuid, id: Uuid)
    | CreateSettlement(caller: Uuid, id: Uuid, g: Uuid, from: Uuid, to: Uuid, amount: Amount, notes: Option<string>)
    | UpdateSettlement(caller: Uuid, id: Uuid, newAmount: Option<Amount>, newNotes: Option<string>)
    | DeleteSettlement(caller: Uuid, id: Uuid)
    | UpsertTx(caller: Uuid, upsert: UpsertTxRequest)
    | UpdateTx(caller: Uuid, id: Uuid, change: UpdateTxRequest)
    | DeleteTx(caller: Uuid, id: Uuid)
    | SetUser(user: Uuid, currency: string)
    | PurgeTxs
    | PurgeGroupTxs
    | PurgeSettlements
    | PurgeGroups

  /** What the handler answers. */
  ghost function Result(db: Tables, c: Command, now: Time): Response {
    match c
    case CreateGroup(_, g) => if g in db.groups then ServerError else Ok
    case AddMember(caller, g, user) => AddMemberResult(db, caller, g, user)
    case RemoveMember(caller, g, user) => RemoveMemberResult(db, caller, g, user)
    case LeaveGroup(caller, g) => LeaveGroupResult(db, caller, g)
    case DeleteGroup(caller, g) => DeleteGroupResult(db, caller, g)
    case CreateGroupTx(caller, g, req) => CreateGroupTxResult(db, caller, g, req, now)
    case UpdateGroupTx(caller, g, id, req) => UpdateGroupTxResult(db, caller, g, id, req, now)
    case DeleteGroupTx(caller, g, id) => DeleteGroupTxResult(db, caller, g, id)
    case CreateSettlement(caller, id, g, from, to, amount, notes) =>
      CreateSettlementResult(db, caller, id, g, from, to, amount, notes, now)
    case UpdateSettlement(caller, id, amount, notes) => UpdateSettlementResult(db, caller, id, amount, notes, now)
    case DeleteSettlement(caller, id) => DeleteSettlementResult(db, caller, id)
    case UpsertTx(caller, req) => UpsertTxResult(db, caller, req, now)
    case UpdateTx(caller, id, req) => UpdateTxResult(db, caller, id, req)
    case DeleteTx(caller, id) => DeleteTxResult(db, caller, id)
    case _ => Ok
  }

  /** What an Ok does. */
  ghost predicate Effect(db: Tables, c: Command, now: Time, db': Tables)
    requires Result(db, c, now) == Ok
  {
    match c
    case CreateGroup(caller, g) => db' == db.(groups := db.groups[g := Group(caller, {caller}, false, now)])
    case AddMember(_, g, user) => db' == WithMembers(db, g, db.groups[g].members + {user})
    case RemoveMember(_, g, user) => db' == WithMembers(db, g, db.groups[g].members - {user})
    case LeaveGroup(caller, g) => db' == WithMembers(db, g, db.groups[g].members - {caller})
    case DeleteGroup(_, g) => db' == DeleteGroupEffect(db, g, now)
    case CreateGroupTx(_, g, req) => CreateGroupTxEffect(db, g, req, now, db')
    case UpdateGroupTx(_, _, id, req) => UpdateGroupTxEffect(db, id, req, now, db')
    case DeleteGroupTx(_, _, id) => db' == DeleteGroupTxEffect(db, id, now)
    case CreateSettlement(_, id, g, from, to, amount, notes) =>
      CreateSettlementEffect(db, id, Settlement(g, from, to, Rounded(amount), notes, false, now), now, db')
    case UpdateSettlement(_, id, amount, notes) => UpdateSettlementEffect(db, id, amount, notes, now, db')
    case DeleteSettlement(_, id) => db' == DeleteSettlementEffect(db, id, now)
    case UpsertTx(caller, req) => db' == UpsertTxEffect(db, caller, req, now)
    case UpdateTx(_, id, req) => db' == UpdateTxEffect(db, id, req, now)
    case DeleteTx(_, id) => db' == HardDeleted(db, {id})
    case SetUser(user, currency) => db' == db.(currencies := db.currencies[user := currency])
    case PurgeTxs => db' == HardDeleted(db, StaleTxs(db, now))
    case PurgeGroupTxs => db' == WithoutGroupTxs(db, StaleGroupTxs(db, now))
    case PurgeSettlements => db' == WithoutSettlements(db, StaleSettlements(db, now))
    case PurgeGroups => db' == WithoutGroups(db, StaleGroups(db, now))
  }

  /** One handler call, atomic: Ok with its effect, or another answer and no effect. */
  ghost predicate Step(db: Tables, c: Command, now: Time, db': Tables) {
    if Result(db, c, now) == Ok then Effect(db, c, now, db') else db' == db
  }

  // ----- The invariant -----

  /** Split in full, each split linked to its user's row; if live, to a live row of its amount. */
  ghost predicate GroupTxOk(groups: map<Uuid, Group>, txs: map<Uuid, Tx>, id: Uuid, gt: GroupTx) {
    && gt.group in groups
    && (groups[gt.group].isDeleted ==> gt.isDeleted)
    && SplitSum(gt.splits) == gt.total
    && LinksOk(txs, id, gt.splits)
    && (!gt.isDeleted ==> forall u :: u in gt.splits ==> MirroredSplit(txs, gt.splits[u]))
  }

  ghost predicate MirroredSplit(txs: map<Uuid, Tx>, split: Split) {
    && split.txId.Some? && split.txId.value in txs
    && !txs[split.txId.value].isDeleted && txs[split.txId.value].amount == split.amount
  }

  /** A live group-linked row is the row of its user's split in a live shared transaction. */
  ghost predicate TxOk(gts: map<Uuid, GroupTx>, p: Uuid, tx: Tx) {
    && (tx.settlement.Some? ==> tx.groupTx.None?)
    && (tx.groupTx.Some? && !tx.isDeleted ==>
          && tx.groupTx.value in gts
          && !gts[tx.groupTx.value].isDeleted
          && Linked(gts[tx.groupTx.value].splits, tx.user, p))
  }

  ghost predicate SettlementOk(groups: map<Uuid, Group>, s: Settlement) {
    s.group in groups && (groups[s.group].isDeleted ==> s.isDeleted) && s.from != s.to && s.amount > 0
  }

  ghost predicate Inv(db: Tables) {
    && (forall id :: id in db.groupTxs ==> GroupTxOk(db.groups, db.txs, id, db.groupTxs[id]))
    && (forall p :: p in db.txs ==> TxOk(db.groupTxs, p, db.txs[p]))
    && (forall id :: id in db.settlements ==> SettlementOk(db.groups, db.settlements[id]))
  }

  // ----- Requests that keep it -----

  /** The upsert would give a live group-linked row another amount than its split. */
  predicate RewritesLinkedRow(db: Tables, req: UpsertTxRequest) {
    && req.id in db.txs && db.txs[req.id].groupTx.Some? && !db.txs[req.id].isDeleted
    && Rounded(req.amount) != db.txs[req.id].amount
  }

  /** The total that an update leaves. */
  function TotalAfter(db: Tables, id: Uuid, req: UpdateGroupTxRequest): Cents {
    if req.total.Some? then Rounded(req.total.value) else if id in db.groupTxs then db.groupTxs[id].total else 0
  }

  ghost predicate CreateLands(db: Tables, req: CreateGroupTxRequest) {
    Lands(OldSplits(db, req.id), req.splits, Rounded(req.total))
  }

  ghost predicate UpdateLands(db: Tables, id: Uuid, req: UpdateGroupTxRequest) {
    req.splits != [] ==> Lands(OldSplits(db, id), req.splits, TotalAfter(db, id, req))
  }

  ghost predicate Careful(db: Tables, c: Command) {
    match c
    case CreateGroupTx(_, _, req) => CreateLands(db, req)
    case UpdateGroupTx(_, _, id, req) => UpdateLands(db, id, req)
    case UpsertTx(_, req) => !RewritesLinkedRow(db, req)
    case _ => true
  }

  // ----- Preservation, table by table -----

  lemma MembershipKeeps(db: Tables, g: Uuid, group: Group)
    requires Inv(db)
    requires g in db.groups ==> group.isDeleted == db.groups[g].isDeleted
    ensures Inv(db.(groups := db.groups[g := group]))
  {
    hide SplitSum, LinksOk, MirroredSplit, TxOk;
  }

  /** A shared transaction is indifferent to changes of rows that are not its own. */
  lemma OtherRowsDoNotMatter(groups: map<Uuid, Group>, txs: map<Uuid, Tx>, txs': map<Uuid, Tx>, id: Uuid, gt: GroupTx)
    requires GroupTxOk(groups, txs, id, gt)
    requires forall p :: p in txs && txs[p].groupTx == Some(id) ==> p in txs' && txs'[p] == txs[p]
    ensures GroupTxOk(groups, txs', id, gt)
  {
    hide SplitSum;
    forall u | u in gt.splits && gt.splits[u].txId.Some?
      ensures Linked(gt.splits, u, gt.splits[u].txId.value)
      ensures txs'[gt.splits[u].txId.value] == txs[gt.splits[u].txId.value]
    {
    }
  }

  lemma ServedTxOk(
    groups: map<Uuid, Group>, txs: map<Uuid, Tx>, before: map<Uuid, Split>, gt: GroupTx, gid: Uuid,
    desired: seq<SplitInput>, details: Details, now: Time, txs': map<Uuid, Tx>)
    requires gt.group in groups && (groups[gt.group].isDeleted ==> gt.isDeleted)
    requires Lands(before, desired, gt.total)
    requires LinksOk(txs, gid, before)
    requires SplitsApplied(txs, before, gid, desired, details, now, txs', gt.splits)
    ensures GroupTxOk(groups, txs', gid, gt)
  {
    AppliedSum(gt.splits, desired);
    ServedIsReconciled(txs, before, gid, desired, details, now, txs', gt.splits);
    hide SplitSum, Reconciled, Served, AmountOf, LinksOk, Lands;
    forall u | u in gt.splits
      ensures MirroredSplit(txs', gt.splits[u])
      ensures var tx := txs'[gt.splits[u].txId.value]; tx.user == u && tx.groupTx == Some(gid)
    {
      SplitIsMirrored(txs, before, gid, desired, details, now, txs', gt.splits, u);
    }
    assert LinksOk(txs', gid, gt.splits) by { LinksFromRows(txs', gid, gt.splits); }
  }

  lemma LinksFromRows(txs: map<Uuid, Tx>, gid: Uuid, splits: map<Uuid, Split>)
    requires forall u :: u in splits && splits[u].txId.Some? ==>
               splits[u].txId.value in txs && txs[splits[u].txId.value].user == u
                   && txs[splits[u].txId.value].groupTx == Some(gid)
    ensures LinksOk(txs, gid, splits)
  {
  }

  lemma ServedRowOk(
    gts: map<Uuid, GroupTx>, txs: map<Uuid, Tx>, before: map<Uuid, Split>, gt: GroupTx, gid: Uuid,
    desired: seq<SplitInput>, details: Details, now: Time, txs': map<Uuid, Tx>, p: Uuid)
    requires !gt.isDeleted && p in txs' && (p in txs ==> TxOk(gts, p, txs[p]))
    requires before == if gid in gts then gts[gid].splits else map[]
    requires LinksOk(txs, gid, before)
    requires Reconciled(txs, before, gid, desired, details, now, txs', gt.splits)
    ensures TxOk(gts[gid := gt], p, txs'[p])
  {
    if txs'[p].groupTx == Some(gid) && !txs'[p].isDeleted {
      LiveRowsAreLinked(txs, before, gid, desired, details, now, txs', gt.splits, p);
    }
    RowKeepsSettlement(txs, before, gid, desired, details, now, txs', gt.splits, p);
    hide LinksOk;
    if p in txs && txs[p].groupTx != Some(gid) {
      assert txs'[p] == txs[p] by {
        ReconciledKeeps(txs, before, gid, desired, details, now, txs', gt.splits);
      }
    }
    hide Reconciled;
  }

  lemma ReplacedSplitsKeep(
    db: Tables, gt: GroupTx, gid: Uuid, desired: seq<SplitInput>, details: Details, now: Time, db': Tables)
    requires Inv(db) && Lands(OldSplits(db, gid), desired, gt.total)
    requires !gt.isDeleted && gt.group in db.groups && !db.groups[gt.group].isDeleted
    requires SplitsApplied(db.txs, OldSplits(db, gid), gid, desired, details, now, db'.txs, gt.splits)
    requires db' == db.(groupTxs := db.groupTxs[gid := gt], txs := db'.txs)
    ensures Inv(db')
  {
    var before := OldSplits(db, gid);
    hide SplitSum, AmountOf, OrphanFree, Reconciled, Served;
    assert LinksOk(db.txs, gid, before);
    ServedIsReconciled(db.txs, before, gid, desired, details, now, db'.txs, gt.splits);
    hide LinksOk, Lands;
    ServedTxOk(db.groups, db.txs, before, gt, gid, desired, details, now, db'.txs);
    ReconciledKeeps(db.txs, before, gid, desired, details, now, db'.txs, gt.splits);
    forall id | id in db.groupTxs && id != gid
      ensures GroupTxOk(db.groups, db'.txs, id, db.groupTxs[id])
    {
      OtherRowsDoNotMatter(db.groups, db.txs, db'.txs, id, db.groupTxs[id]);
    }
    forall p | p in db'.txs
      ensures TxOk(db'.groupTxs, p, db'.txs[p])
    {
      ServedRowOk(db.groupTxs, db.txs, before, gt, gid, desired, details, now, db'.txs, p);
    }
    hide GroupTxOk, TxOk;
  }

  /** Reconciliation writes no settlement id, and moves no row to another shared transaction. */
  lemma RowKeepsSettlement(
    txs: map<Uuid, Tx>, splits: map<Uuid, Split>, gid: Uuid, desired: seq<SplitInput>, details: Details, now: Time,
    txs': map<Uuid, Tx>, splits': map<Uuid, Split>, p: Uuid)
    requires LinksOk(txs, gid, splits) && p in txs'
    requires Reconciled(txs, splits, gid, desired, details, now, txs', splits')
    ensures p in txs ==> txs'[p].settlement == txs[p].settlement && txs'[p].groupTx == txs[p].groupTx
    ensures p !in txs ==> txs'[p].settlement.None? && txs'[p].groupTx == Some(gid)
  {
    var keep := Users(desired);
    var kept, rest := KeptTxs(txs, splits, keep, now), KeptSplits(splits, keep);
    hide AmountOf;
    if u :| u in keep && Linked(splits', u, p) {
      assert ServedBy(kept, rest, gid, u, AmountOf(desired, u), details, now, txs', splits'[u]);
    } else {
      forall v | v in keep
        ensures !Linked(rest, v, p)
      {
        assert ServedBy(kept, rest, gid, v, AmountOf(desired, v), details, now, txs', splits'[v]);
        assert !Linked(splits', v, p);
      }
    }
  }

  /** Rows outside group transactions may come, change and go. */
  lemma FreeRowsKeep(db: Tables, txs': map<Uuid, Tx>)
    requires Inv(db)
    requires forall p :: p in db.txs && db.txs[p].groupTx.Some? ==> p in txs' && txs'[p] == db.txs[p]
    requires forall p :: p in txs' ==> (p in db.txs && txs'[p] == db.txs[p]) || txs'[p].groupTx.None?
    ensures Inv(db.(txs := txs'))
  {
    hide SplitSum, LinksOk, MirroredSplit;
    forall id | id in db.groupTxs
      ensures GroupTxOk(db.groups, txs', id, db.groupTxs[id])
    {
      OtherRowsDoNotMatter(db.groups, db.txs, txs', id, db.groupTxs[id]);
    }
  }

  /** Rows may change kind, details and timestamp, and deleted ones their amount. */
  lemma RetouchedRowsKeep(db: Tables, txs': map<Uuid, Tx>)
    requires Inv(db) && txs'.Keys == db.txs.Keys
    requires forall p :: p in db.txs ==>
               && txs'[p].user == db.txs[p].user && txs'[p].groupTx == db.txs[p].groupTx
               && txs'[p].settlement == db.txs[p].settlement && txs'[p].isDeleted == db.txs[p].isDeleted
               && (txs'[p].isDeleted || txs'[p].amount == db.txs[p].amount)
    ensures Inv(db.(txs := txs'))
  {
    hide SplitSum;
    forall id | id in db.groupTxs
      ensures GroupTxOk(db.groups, txs', id, db.groupTxs[id])
    {
      var splits := db.groupTxs[id].splits;
      assert forall u :: u in splits && splits[u].txId.Some? ==> Linked(splits, u, splits[u].txId.value);
      assert !db.groupTxs[id].isDeleted ==> forall u :: u in splits ==> MirroredSplit(db.txs, splits[u]);
    }
    forall p | p in txs'
      ensures TxOk(db.groupTxs, p, txs'[p])
    {
      assert TxOk(db.groupTxs, p, db.txs[p]);
    }
  }

  lemma RewrittenRowKeeps(db: Tables, id: Uuid, gt: GroupTx)
    requires Inv(db) && id in db.groupTxs
    requires gt.group == db.groupTxs[id].group && gt.splits == db.groupTxs[id].splits
    requires gt.isDeleted == db.groupTxs[id].isDeleted && gt.total == db.groupTxs[id].total
    ensures Inv(db.(groupTxs := db.groupTxs[id := gt]))
  {
    hide SplitSum, LinksOk, MirroredSplit, Linked;
  }

  lemma SettlementKeeps(db: Tables, id: Uuid, s: Settlement)
    requires Inv(db) && SettlementOk(db.groups, s)
    ensures Inv(db.(settlements := db.settlements[id := s]))
  {
    hide GroupTxOk, TxOk, SettlementOk;
  }

  lemma UnlinkedSum(splits: map<Uuid, Split>, gone: set<Uuid>)
    ensures SplitSum(UnlinkedSplits(splits, gone)) == SplitSum(splits)
  {
    assert UnlinkedSplits(splits, gone).Keys == splits.Keys;
    SumAgree(splits.Keys, SplitAmounts(UnlinkedSplits(splits, gone)), SplitAmounts(splits));
  }

  /** Deleting soft-deleted rows, or rows outside group transactions. */
  lemma HardDeleteKeeps(db: Tables, gone: set<Uuid>)
    requires Inv(db)
    requires forall p :: p in gone && p in db.txs ==> db.txs[p].isDeleted || db.txs[p].groupTx.None?
    ensures Inv(HardDeleted(db, gone))
  {
    var db' := HardDeleted(db, gone);
    hide GroupTxOk, TxOk, UnlinkedSplits;
    forall id | id in db.groupTxs
      ensures GroupTxOk(db'.groups, db'.txs, id, db'.groupTxs[id])
    {
      UnlinkedSum(db.groupTxs[id].splits, gone);
      UnlinkedTxOk(db.groups, db.txs, id, db.groupTxs[id], gone);
    }
    forall p | p in db'.txs
      ensures TxOk(db'.groupTxs, p, db'.txs[p])
    {
      UnlinkedRowOk(db.groupTxs, gone, p, db.txs[p]);
    }
  }

  /** A row that stays is still linked. */
  lemma UnlinkedRowOk(gts: map<Uuid, GroupTx>, gone: set<Uuid>, p: Uuid, tx: Tx)
    requires TxOk(gts, p, tx) && p !in gone
    ensures TxOk(Unlinked(gts, gone), p, tx)
  {
    if tx.groupTx.Some? && tx.groupTx.value in gts {
      var splits := gts[tx.groupTx.value].splits;
      assert Linked(splits, tx.user, p) ==> Linked(UnlinkedSplits(splits, gone), tx.user, p);
    }
  }

  lemma UnlinkedTxOk(groups: map<Uuid, Group>, txs: map<Uuid, Tx>, id: Uuid, gt: GroupTx, gone: set<Uuid>)
    requires GroupTxOk(groups, txs, id, gt)
    requires forall p :: p in gone && p in txs ==> txs[p].isDeleted || txs[p].groupTx.None?
    requires SplitSum(UnlinkedSplits(gt.splits, gone)) == SplitSum(gt.splits)
    ensures GroupTxOk(groups, txs - gone, id, gt.(splits := UnlinkedSplits(gt.splits, gone)))
  {
    hide SplitSum;
    var splits' := UnlinkedSplits(gt.splits, gone);
    forall u, p | Linked(splits', u, p)
      ensures p in txs - gone && txs[p].user == u && txs[p].groupTx == Some(id)
    {
      assert Linked(gt.splits, u, p);
    }
    if !gt.isDeleted {
      forall u | u in splits'
        ensures MirroredSplit(txs - gone, splits'[u])
      {
        assert MirroredSplit(txs, gt.splits[u]);
        assert Linked(gt.splits, u, gt.splits[u].txId.value);
      }
    }
  }

  /** Soft-deleting shared transactions together with all their rows. */
  lemma SoftDeleteKeeps(db: Tables, ids: set<Uuid>, now: Time, gts': map<Uuid, GroupTx>)
    requires Inv(db) && gts'.Keys == db.groupTxs.Keys
    requires forall id :: id in gts' ==>
               gts'[id] == if id in ids then db.groupTxs[id].(isDeleted := true, updatedAt := now) else db.groupTxs[id]
    ensures Inv(db.(txs := SoftDeletedTxs(db.txs, ids, now), groupTxs := gts'))
  {
    var txs' := SoftDeletedTxs(db.txs, ids, now);
    hide SplitSum;
    forall id | id in gts'
      ensures GroupTxOk(db.groups, txs', id, gts'[id])
    {
      assert GroupTxOk(db.groups, db.txs, id, db.groupTxs[id]);
      if id !in ids {
        OtherRowsDoNotMatter(db.groups, db.txs, txs', id, db.groupTxs[id]);
      }
    }
    forall p | p in txs'
      ensures TxOk(gts', p, txs'[p])
    {
      assert TxOk(db.groupTxs, p, db.txs[p]);
    }
  }

  lemma DeleteGroupKeeps(db: Tables, g: Uuid, now: Time)
    requires Inv(db) && g in db.groups
    ensures Inv(DeleteGroupEffect(db, g, now))
  {
    var db' := DeleteGroupEffect(db, g, now);
    hide GroupTxOk, TxOk, SoftDeletedTxs, SettlementOk;
    SoftDeleteKeeps(db, TxsOfGroup(db.groupTxs, g), now, db'.groupTxs);
    var softened := db.(txs := db'.txs, groupTxs := db'.groupTxs);
    forall id | id in db'.groupTxs
      ensures GroupTxOk(db'.groups, db'.txs, id, db'.groupTxs[id])
    {
      assert GroupTxOk(softened.groups, softened.txs, id, softened.groupTxs[id]);
      GroupGone(db.groups, g, db'.groups[g], db'.txs, id, db'.groupTxs[id]);
    }
    forall id | id in db'.settlements
      ensures SettlementOk(db'.groups, db'.settlements[id])
    {
      SettlementGone(db.groups, g, now, db.settlements[id]);
    }
  }

  /** Marking a group deleted suits a deleted transaction, and one of another group. */
  lemma GroupGone(groups: map<Uuid, Group>, g: Uuid, group: Group, txs: map<Uuid, Tx>, id: Uuid, gt: GroupTx)
    requires GroupTxOk(groups, txs, id, gt) && (gt.group == g ==> gt.isDeleted)
    ensures GroupTxOk(groups[g := group], txs, id, gt)
  {
    hide SplitSum, LinksOk, MirroredSplit;
  }

  lemma SettlementGone(groups: map<Uuid, Group>, g: Uuid, now: Time, s: Settlement)
    requires g in groups && SettlementOk(groups, s)
    ensures SettlementOk(
              groups[g := groups[g].(isDeleted := true, updatedAt := now)],
              if s.group == g then s.(isDeleted := true, updatedAt := now) else s)
  {
  }

  lemma WithoutGroupTxsKeeps(db: Tables, gone: set<Uuid>)
    requires Inv(db)
    requires forall id :: id in gone && id in db.groupTxs ==> db.groupTxs[id].isDeleted
    ensures Inv(WithoutGroupTxs(db, gone))
  {
    var db' := WithoutGroupTxs(db, gone);
    hide SplitSum, LinksOk, MirroredSplit;
    forall id | id in db'.groupTxs
      ensures GroupTxOk(db'.groups, db'.txs, id, db'.groupTxs[id])
    {
      OtherRowsDoNotMatter(db.groups, db.txs, db'.txs, id, db.groupTxs[id]);
    }
    forall p | p in db'.txs
      ensures TxOk(db'.groupTxs, p, db'.txs[p])
    {
      assert TxOk(db.groupTxs, p, db.txs[p]);
    }
  }

  lemma WithoutSettlementsKeeps(db: Tables, gone: set<Uuid>)
    requires Inv(db)
    ensures Inv(WithoutSettlements(db, gone))
  {
    var db' := WithoutSettlements(db, gone);
    hide SplitSum, LinksOk, MirroredSplit;
    forall id | id in db'.groupTxs
      ensures GroupTxOk(db'.groups, db'.txs, id, db'.groupTxs[id])
    {
      assert forall p :: p in db.txs && db.txs[p].groupTx == Some(id) ==> TxOk(db.groupTxs, p, db.txs[p]);
      OtherRowsDoNotMatter(db.groups, db.txs, db'.txs, id, db.groupTxs[id]);
    }
    forall p | p in db'.txs
      ensures TxOk(db'.groupTxs, p, db'.txs[p])
    {
      assert TxOk(db.groupTxs, p, db.txs[p]);
    }
  }

  lemma WithoutGroupsKeeps(db: Tables, gone: set<Uuid>)
    requires Inv(db)
    requires forall g :: g in gone && g in db.groups ==> db.groups[g].isDeleted
    ensures Inv(WithoutGroups(db, gone))
  {
    var gts := set id | id in db.groupTxs && db.groupTxs[id].group in gone;
    var sts := set id | id in db.settlements && db.settlements[id].group in gone;
    forall id | id in gts
      ensures db.groupTxs[id].isDeleted
    {
      assert GroupTxOk(db.groups, db.txs, id, db.groupTxs[id]);
    }
    hide GroupTxOk, TxOk, SettlementOk;
    WithoutGroupTxsKeeps(db, gts);
    var db1 := WithoutGroupTxs(db, gts);
    WithoutSettlementsKeeps(db1, sts);
    GroupsGoneKeeps(WithoutSettlements(db1, sts), gone);
  }

  /** Groups without rows may go. */
  lemma GroupsGoneKeeps(db: Tables, gone: set<Uuid>)
    requires Inv(db)
    requires forall id :: id in db.groupTxs ==> db.groupTxs[id].group !in gone
    requires forall id :: id in db.settlements ==> db.settlements[id].group !in gone
    ensures Inv(db.(groups := db.groups - gone))
  {
    hide SplitSum, LinksOk, MirroredSplit, TxOk;
  }

  /** Each statement of the purge job keeps it, whatever happens between them. */
  lemma PurgeKeeps(db: Tables, c: Command, now: Time, db': Tables)
    requires Inv(db) && Step(db, c, now, db')
    requires c.PurgeTxs? || c.PurgeGroupTxs? || c.PurgeSettlements? || c.PurgeGroups?
    ensures Inv(db')
  {
    hide Inv;
    match c
    case PurgeTxs => HardDeleteKeeps(db, StaleTxs(db, now));
    case PurgeGroupTxs => WithoutGroupTxsKeeps(db, StaleGroupTxs(db, now));
    case PurgeSettlements => WithoutSettlementsKeeps(db, StaleSettlements(db, now));
    case PurgeGroups => WithoutGroupsKeeps(db, StaleGroups(db, now));
  }

  // ----- Every handler, every run -----

  lemma GroupCommandKeeps(db: Tables, c: Command, now: Time, db': Tables)
    requires Inv(db) && Step(db, c, now, db')
    requires c.CreateGroup? || c.AddMember? || c.RemoveMember? || c.LeaveGroup? || c.DeleteGroup? || c.DeleteGroupTx?
    ensures Inv(db')
  {
    hide Inv, UserGroupBalance;
    if Result(db, c, now) == Ok {
      match c
      case CreateGroup(caller, g) => MembershipKeeps(db, g, Group(caller, {caller}, false, now));
      case AddMember(_, g, user) => MembershipKeeps(db, g, db.groups[g].(members := db.groups[g].members + {user}));
      case RemoveMember(_, g, user) => MembershipKeeps(db, g, db.groups[g].(members := db.groups[g].members - {user}));
      case LeaveGroup(caller, g) => MembershipKeeps(db, g, db.groups[g].(members := db.groups[g].members - {caller}));
      case DeleteGroup(_, g) => DeleteGroupKeeps(db, g, now);
      case DeleteGroupTx(_, _, id) => SoftDeleteKeeps(db, {id}, now, db'.groupTxs);
    }
  }

  lemma CreateGroupTxKeeps(db: Tables, caller: Uuid, g: Uuid, req: CreateGroupTxRequest, now: Time, db': Tables)
    requires Inv(db) && CreateLands(db, req)
    requires CreateGroupTxResult(db, caller, g, req, now) == Ok && CreateGroupTxEffect(db, g, req, now, db')
    ensures Inv(db')
  {
    hide Inv, SplitsApplied;
    ReplacedSplitsKeep(db, db'.groupTxs[req.id], req.id, req.splits, req.details, now, db');
  }

  lemma UpdateGroupTxKeeps(
    db: Tables, caller: Uuid, g: Uuid, id: Uuid, req: UpdateGroupTxRequest, now: Time, db': Tables)
    requires Inv(db) && UpdateLands(db, id, req)
    requires UpdateGroupTxResult(db, caller, g, id, req, now) == Ok && UpdateGroupTxEffect(db, id, req, now, db')
    ensures Inv(db')
  {
    assert db.groupTxs[id].group in db.groups && !db.groups[db.groupTxs[id].group].isDeleted by {
      assert GroupTxOk(db.groups, db.txs, id, db.groupTxs[id]);
    }
    hide Inv, SplitsApplied;
    var row := UpdatedRow(db.groupTxs[id], req, now);
    if |req.splits| == 0 {
      RewrittenRowKeeps(db, id, row);
      RetouchedRowsKeep(db.(groupTxs := db.groupTxs[id := row]), db'.txs);
    } else {
      ReplacedSplitsKeep(db, db'.groupTxs[id], id, req.splits, row.details, now, db');
    }
  }

  lemma BookedPairKeeps(db: Tables, sid: Uuid, s: Settlement, excess: Cents, now: Time, txs': map<Uuid, Tx>)
    requires Inv(db) && PairBooked(db.txs, sid, s, excess, now, txs')
    ensures Inv(db.(txs := txs'))
  {
    hide Inv;
    FreeRowsKeep(db, txs');
  }

  lemma CreateSettlementKeeps(db: Tables, c: Command, now: Time, db': Tables)
    requires Inv(db) && Step(db, c, now, db') && Result(db, c, now) == Ok && c.CreateSettlement?
    ensures Inv(db')
  {
    hide PairwiseDebt, PairBooked, GroupTxOk, TxOk;
    var s := Settlement(c.g, c.from, c.to, Rounded(c.amount), c.notes, false, now);
    SettlementKeeps(db, c.id, s);
    hide Inv;
    var excess := Excess(DebtRead(db, c.id, s), s.amount);
    BookedPairKeeps(db.(settlements := db.settlements[c.id := s]), c.id, s, excess, now, db'.txs);
  }

  lemma UpdateSettlementKeeps(db: Tables, c: Command, now: Time, db': Tables)
    requires Inv(db) && Step(db, c, now, db') && Result(db, c, now) == Ok && c.UpdateSettlement?
    ensures Inv(db')
  {
    hide PairwiseDebt, PairBooked, GroupTxOk;
    var s := UpdatedSettlement(db.settlements[c.id], c.newAmount, c.newNotes, now);
    SettlementKeeps(db, c.id, s);
    var updated := db.(settlements := db.settlements[c.id := s]);
    var rows := RowsOfSettlement(db.txs, c.id);
    assert forall p :: p in rows ==> TxOk(db.groupTxs, p, db.txs[p]);
    hide Inv;
    if c.newAmount.Some? {
      HardDeleteKeeps(updated, rows);
      var dropped := Dropped(db, c.id, c.newAmount, c.newNotes, now);
      BookedPairKeeps(dropped, c.id, s, Excess(DebtWithout(dropped, c.id, s), s.amount), now, db'.txs);
    } else {
      FreeSettlementRowsKeep(updated, c.id, db'.txs);
    }
  }

  lemma SettlementCommandKeeps(db: Tables, c: Command, now: Time, db': Tables)
    requires Inv(db) && Step(db, c, now, db') && Result(db, c, now) == Ok
    requires c.CreateSettlement? || c.UpdateSettlement? || c.DeleteSettlement?
    ensures Inv(db')
  {
    hide GroupTxOk, TxOk;
    match c
    case CreateSettlement(_, _, _, _, _, _, _) => CreateSettlementKeeps(db, c, now, db');
    case UpdateSettlement(_, _, _, _) => UpdateSettlementKeeps(db, c, now, db');
    case DeleteSettlement(_, id) =>
      SettlementKeeps(db, id, db'.settlements[id]);
      hide Inv;
      FreeSettlementRowsKeep(db.(settlements := db'.settlements), id, db'.txs);
  }

  lemma FreeSettlementRowsKeep(db: Tables, sid: Uuid, txs': map<Uuid, Tx>)
    requires Inv(db) && txs'.Keys == db.txs.Keys
    requires forall p :: p in db.txs && db.txs[p].settlement != Some(sid) ==> txs'[p] == db.txs[p]
    requires forall p :: p in db.txs && db.txs[p].settlement == Some(sid) ==> txs'[p].groupTx == db.txs[p].groupTx
    ensures Inv(db.(txs := txs'))
  {
    hide GroupTxOk;
    assert forall p :: p in db.txs ==> TxOk(db.groupTxs, p, db.txs[p]);
    FreeRowsKeep(db, txs');
  }

  lemma PersonalCommandKeeps(db: Tables, c: Command, now: Time, db': Tables)
    requires Inv(db) && Careful(db, c) && Step(db, c, now, db') && Result(db, c, now) == Ok
    requires c.UpsertTx? || c.UpdateTx? || c.DeleteTx?
    ensures Inv(db')
  {
    hide Inv;
    match c
    case UpsertTx(caller, req) =>
      if req.id in db.txs && db.txs[req.id].groupTx.Some? {
        RetouchedRowsKeep(db, db'.txs);
      } else {
        FreeRowsKeep(db, db'.txs);
      }
    case UpdateTx(_, id, req) =>
      FreeRowsKeep(db, db'.txs);
    case DeleteTx(_, id) =>
      HardDeleteKeeps(db, {id});
  }

  /** Every careful command keeps the invariant. */
  lemma StepKeeps(db: Tables, c: Command, now: Time, db': Tables)
    requires Inv(db) && Careful(db, c) && Step(db, c, now, db')
    ensures Inv(db')
  {
    hide Inv, CreateGroupTxEffect, UpdateGroupTxEffect, CreateSettlementEffect, UpdateSettlementEffect;
    if Result(db, c, now) == Ok {
      match c
      case CreateGroupTx(caller, g, req) => CreateGroupTxKeeps(db, caller, g, req, now, db');
      case UpdateGroupTx(caller, g, id, req) => UpdateGroupTxKeeps(db, caller, g, id, req, now, db');
      case CreateSettlement(_, _, _, _, _, _, _) => SettlementCommandKeeps(db, c, now, db');
      case UpdateSettlement(_, _, _, _) => SettlementCommandKeeps(db, c, now, db');
      case DeleteSettlement(_, _) => SettlementCommandKeeps(db, c, now, db');
      case UpsertTx(_, _) => PersonalCommandKeeps(db, c, now, db');
      case UpdateTx(_, _, _) => PersonalCommandKeeps(db, c, now, db');
      case DeleteTx(_, _) => PersonalCommandKeeps(db, c, now, db');
      case PurgeTxs => PurgeKeeps(db, c, now, db');
      case PurgeGroupTxs => PurgeKeeps(db, c, now, db');
      case PurgeSettlements => PurgeKeeps(db, c, now, db');
      case PurgeGroups => PurgeKeeps(db, c, now, db');
      case SetUser(user, currency) => CurrenciesDoNotMatter(db, db'.currencies);
      case _ => GroupCommandKeeps(db, c, now, db');
    }
  }

  lemma CurrenciesDoNotMatter(db: Tables, currencies: map<Uuid, string>)
    requires Inv(db)
    ensures Inv(db.(currencies := currencies))
  {
    hide GroupTxOk, TxOk, SettlementOk;
  }

  /** A run from empty tables; requests may be rejected. */
  ghost predicate Run(states: seq<Tables>, commands: seq<Command>, times: seq<Time>) {
    && |states| == |commands| + 1 && |times| == |commands|
    && states[0].groups == map[] && states[0].groupTxs == map[] && states[0].txs == map[]
    && states[0].settlements == map[]
    && forall i :: 0 <= i < |commands| ==> Step(states[i], commands[i], times[i], states[i + 1])
  }

  lemma RunStep(states: seq<Tables>, commands: seq<Command>, times: seq<Time>, n: nat)
    requires Run(states, commands, times) && 0 < n < |states|
    ensures |commands| == |times| == |states| - 1
    ensures Step(states[n - 1], commands[n - 1], times[n - 1], states[n])
  {
    hide Step;
    assert Step(states[n - 1], commands[n - 1], times[n - 1], states[n - 1 + 1]);
  }

  ghost predicate AllCareful(states: seq<Tables>, commands: seq<Command>) {
    |states| > |commands| && forall i :: 0 <= i < |commands| ==> Careful(states[i], commands[i])
  }

  lemma {:induction false} ReachableInv(states: seq<Tables>, commands: seq<Command>, times: seq<Time>, i: nat)
    requires Run(states, commands, times) && AllCareful(states, commands) && i < |states|
    ensures Inv(states[i])
  {
    hide Step, Careful, GroupTxOk, TxOk, SettlementOk;
    if i > 0 {
      ReachableInv(states, commands, times, i - 1);
      hide Inv;
      assert Step(states[i - 1], commands[i - 1], times[i - 1], states[i - 1 + 1]);
      StepKeeps(states[i - 1], commands[i - 1], times[i - 1], states[i]);
    }
  }

  /** In every reachable state, every group is split in full, the balances of all the people its
      live rows name, departed members included, cancel out, and each balance is made of pairwise
      debts. */
  lemma ReachableBalances(
    states: seq<Tables>, commands: seq<Command>, times: seq<Time>, i: nat, g: Uuid, users: set<Uuid>)
    requires Run(states, commands, times) && AllCareful(states, commands) && i < |states|
    requires NamesAll(states[i].groupTxs, states[i].settlements, g, users)
    ensures SplitInFull(states[i].groupTxs, g)
    ensures Sum(users, BalanceOf(states[i].groupTxs, states[i].settlements, g)) == 0
    ensures forall u :: UserGroupBalance(states[i].groupTxs, states[i].settlements, g, u) ==
                        Sum(users - {u}, DebtTo(states[i].groupTxs, states[i].settlements, g, u))
  {
    var gts, sts := states[i].groupTxs, states[i].settlements;
    ReachableInv(states, commands, times, i);
    assert SplitInFull(gts, g) by {
      hide SplitSum, LinksOk, MirroredSplit;
    }
    hide Run, AllCareful, Inv, SplitInFull, UserGroupBalance;
    BalancesCancel(gts, sts, g, users);
    forall u
      ensures UserGroupBalance(gts, sts, g, u) == Sum(users - {u}, DebtTo(gts, sts, g, u))
    {
      NetIsPairwise(gts, sts, g, users, u);
    }
  }

  // ----- Splits and live personal rows -----

  function LinkedAmount(txs: map<Uuid, Tx>, id: Uuid): Uuid -> int {
    (p: Uuid) => if p in txs && txs[p].groupTx == Some(id) && !txs[p].isDeleted then txs[p].amount else 0
  }

  /** The splits of a live shared transaction and its live personal rows are in one-to-one
      correspondence, with equal user and amount; so the rows add up to the total. */
  lemma RowsMirrorSplits(db: Tables, id: Uuid)
    requires Inv(db) && id in db.groupTxs && !db.groupTxs[id].isDeleted
    ensures var splits := db.groupTxs[id].splits;
            && (forall u :: u in splits ==>
                  && splits[u].txId.Some? && splits[u].txId.value in db.txs
                  && var tx := db.txs[splits[u].txId.value];
                     tx.groupTx == Some(id) && !tx.isDeleted && tx.user == u && tx.amount == splits[u].amount)
            && (forall p :: p in db.txs && db.txs[p].groupTx == Some(id) && !db.txs[p].isDeleted ==>
                  Linked(splits, db.txs[p].user, p))
    ensures Sum(db.txs.Keys, LinkedAmount(db.txs, id)) == db.groupTxs[id].total
  {
    var gt := db.groupTxs[id];
    var splits := gt.splits;
    assert GroupTxOk(db.groups, db.txs, id, gt);
    assert forall u :: u in splits ==> MirroredSplit(db.txs, splits[u]) && Linked(splits, u, splits[u].txId.value);
    assert forall p :: p in db.txs ==> TxOk(db.groupTxs, p, db.txs[p]);
    hide Inv, GroupTxOk;
    LinkedRowsAddUp(db.txs, id, splits);
  }

  lemma LinkedRowsAddUp(txs: map<Uuid, Tx>, id: Uuid, splits: map<Uuid, Split>)
    requires forall u :: u in splits ==>
               && splits[u].txId.Some? && splits[u].txId.value in txs
               && var tx := txs[splits[u].txId.value];
                  tx.groupTx == Some(id) && !tx.isDeleted && tx.user == u && tx.amount == splits[u].amount
    requires forall p :: p in txs && txs[p].groupTx == Some(id) && !txs[p].isDeleted ==> Linked(splits, txs[p].user, p)
    ensures Sum(txs.Keys, LinkedAmount(txs, id)) == SplitSum(splits)
  {
    var rows := set p | p in txs && txs[p].groupTx == Some(id) && !txs[p].isDeleted;
    var to := map u | u in splits :: splits[u].txId.value;
    forall u | u in splits
      ensures to[u] in rows && txs[to[u]].user == u && to[u] in to.Values
      ensures SplitAmounts(splits)(u) == LinkedAmount(txs, id)(to[u])
    {
      assert to[u] == splits[u].txId.value;
    }
    assert to.Values == rows by {
      assert forall p :: p in rows ==> txs[p].user in to && to[txs[p].user] == p;
    }
    SumRename(splits.Keys, SplitAmounts(splits), rows, LinkedAmount(txs, id), to);
    SumWiden(rows, txs.Keys, LinkedAmount(txs, id));
  }

  // ----- Exactly which accepted requests break it -----

  /** An accepted shared transaction keeps the ledger whole if and only if what is stored of its splits
      adds up to what is stored of its total, and no user without a row is named twice. */
  lemma AcceptedCreateKeepsIff(
    db: Tables, caller: Uuid, g: Uuid, req: CreateGroupTxRequest, now: Time, db': Tables)
    requires Inv(db)
    requires CreateGroupTxResult(db, caller, g, req, now) == Ok && CreateGroupTxEffect(db, g, req, now, db')
    ensures Inv(db') <==> CreateLands(db, req)
  {
    if CreateLands(db, req) {
      hide CreateGroupTxResult, CreateGroupTxEffect, Inv;
      CreateGroupTxKeeps(db, caller, g, req, now, db');
    } else {
      hide CreateGroupTxResult;
      assert OldLinksOk(db, req.id);
      MissedBreaks(db, req.id, req.splits, req.details, now, db');
    }
  }

  lemma AcceptedCreate(db: Tables, caller: Uuid, g: Uuid, req: CreateGroupTxRequest, now: Time, db': Tables)
    requires CreateGroupTxResult(db, caller, g, req, now) == Ok && Step(db, CreateGroupTx(caller, g, req), now, db')
    ensures CreateGroupTxEffect(db, g, req, now, db')
  {
    hide CreateGroupTxResult, CreateGroupTxEffect;
  }

  lemma AcceptedUpdate(db: Tables, caller: Uuid, g: Uuid, id: Uuid, req: UpdateGroupTxRequest, now: Time)
    requires UpdateGroupTxResult(db, caller, g, id, req, now) == Ok
    ensures id in db.groupTxs && AllStorable(req.splits)
    ensures req.splits != [] ==> InputSum(req.splits) == OrElse(req.total, db.groupTxs[id].total as real)
  {
    hide InputSum, OneCurrency, Rounded;
  }

  lemma AcceptedUpdateKeepsIff(
    db: Tables, caller: Uuid, g: Uuid, id: Uuid, req: UpdateGroupTxRequest, now: Time, db': Tables)
    requires Inv(db)
    requires UpdateGroupTxResult(db, caller, g, id, req, now) == Ok && UpdateGroupTxEffect(db, id, req, now, db')
    ensures Inv(db') <==> UpdateLands(db, id, req)
  {
    if UpdateLands(db, id, req) {
      hide UpdateGroupTxResult, UpdateGroupTxEffect, Inv;
      UpdateGroupTxKeeps(db, caller, g, id, req, now, db');
    } else {
      AcceptedUpdate(db, caller, g, id, req, now);
      hide UpdateGroupTxResult;
      assert OldLinksOk(db, id);
      MissedBreaks(db, id, req.splits, UpdatedRow(db.groupTxs[id], req, now).details, now, db');
    }
  }

  ghost predicate OldLinksOk(db: Tables, id: Uuid) {
    id in db.groupTxs ==> LinksOk(db.txs, id, db.groupTxs[id].splits)
  }

  /** A request that does not land leaves a wrong sum or a row without a split. */
  lemma MissedBreaks(db: Tables, gid: Uuid, desired: seq<SplitInput>, details: Details, now: Time, db': Tables)
    requires OldLinksOk(db, gid) && gid in db'.groupTxs
    requires SplitsApplied(db.txs, OldSplits(db, gid), gid, desired, details, now, db'.txs, db'.groupTxs[gid].splits)
    requires !Lands(OldSplits(db, gid), desired, db'.groupTxs[gid].total)
    ensures !Inv(db')
  {
    var splits' := db'.groupTxs[gid].splits;
    hide AmountOf, Served, OrphanFree;
    AppliedSum(splits', desired);
    if OrphanFree(desired, OldSplits(db, gid)) {
      assert !GroupTxOk(db'.groups, db'.txs, gid, db'.groupTxs[gid]);
    } else {
      var p := OrphanRow(db.txs, OldSplits(db, gid), gid, desired, details, now, db'.txs, splits');
      assert !TxOk(db'.groupTxs, p, db'.txs[p]);
    }
  }

  /** With distinct users: if and only if the rounded amounts add up to the rounded total. */
  lemma DistinctCreateKeepsIff(
    db: Tables, caller: Uuid, g: Uuid, req: CreateGroupTxRequest, now: Time, db': Tables)
    requires Inv(db) && Distinct(req.splits)
    requires CreateGroupTxResult(db, caller, g, req, now) == Ok && CreateGroupTxEffect(db, g, req, now, db')
    ensures Inv(db') <==> StoredSum(req.splits) == Rounded(req.total)
  {
    AcceptedCreateKeepsIff(db, caller, g, req, now, db');
    hide Inv, CreateGroupTxEffect, Lands;
    DistinctLandsIff(OldSplits(db, req.id), req.splits, Rounded(req.total));
  }

  /** In whole cents: if and only if the users are distinct. */
  lemma WholeCentsCreateKeepsIff(
    db: Tables, caller: Uuid, g: Uuid, req: CreateGroupTxRequest, now: Time, db': Tables)
    requires Inv(db) && InWholeCents(req.splits) && Rounded(req.total) as real == req.total
    requires CreateGroupTxResult(db, caller, g, req, now) == Ok && CreateGroupTxEffect(db, g, req, now, db')
    ensures Inv(db') <==> Distinct(req.splits)
  {
    AcceptedCreateKeepsIff(db, caller, g, req, now, db');
    hide Inv, CreateGroupTxEffect, Lands;
    WholeCentsLandIff(OldSplits(db, req.id), req.splits, Rounded(req.total));
  }

  lemma DistinctUpdateKeepsIff(
    db: Tables, caller: Uuid, g: Uuid, id: Uuid, req: UpdateGroupTxRequest, now: Time, db': Tables)
    requires Inv(db) && Distinct(req.splits) && req.splits != []
    requires UpdateGroupTxResult(db, caller, g, id, req, now) == Ok && UpdateGroupTxEffect(db, id, req, now, db')
    ensures Inv(db') <==> StoredSum(req.splits) == TotalAfter(db, id, req)
  {
    AcceptedUpdate(db, caller, g, id, req, now);
    hide Inv, UpdateGroupTxResult, UpdateGroupTxEffect, Lands;
    AcceptedUpdateKeepsIff(db, caller, g, id, req, now, db');
    DistinctLandsIff(OldSplits(db, id), req.splits, TotalAfter(db, id, req));
  }

  lemma WholeCentsUpdateKeepsIff(
    db: Tables, caller: Uuid, g: Uuid, id: Uuid, req: UpdateGroupTxRequest, now: Time, db': Tables)
    requires Inv(db) && InWholeCents(req.splits)
    requires req.total.Some? ==> Rounded(req.total.value) as real == req.total.value
    requires UpdateGroupTxResult(db, caller, g, id, req, now) == Ok && UpdateGroupTxEffect(db, id, req, now, db')
    ensures Inv(db') <==> Distinct(req.splits)
  {
    AcceptedUpdate(db, caller, g, id, req, now);
    hide Inv, UpdateGroupTxResult, UpdateGroupTxEffect, Lands;
    AcceptedUpdateKeepsIff(db, caller, g, id, req, now, db');
    if req.splits != [] {
      WholeCentsLandIff(OldSplits(db, id), req.splits, TotalAfter(db, id, req));
    }
  }

  /** An accepted personal upsert keeps it if and only if it does not give a live group-linked row
      another amount. */
  lemma AcceptedUpsertKeepsIff(db: Tables, caller: Uuid, req: UpsertTxRequest, now: Time)
    requires Inv(db) && UpsertTxResult(db, caller, req, now) == Ok
    ensures Inv(UpsertTxEffect(db, caller, req, now)) <==> !RewritesLinkedRow(db, req)
  {
    var db' := UpsertTxEffect(db, caller, req, now);
    if RewritesLinkedRow(db, req) {
      var tx := db.txs[req.id];
      var id := tx.groupTx.value;
      assert TxOk(db.groupTxs, req.id, tx);
      assert GroupTxOk(db.groups, db.txs, id, db.groupTxs[id]);
      assert MirroredSplit(db.txs, db.groupTxs[id].splits[tx.user]);
      assert !MirroredSplit(db'.txs, db'.groupTxs[id].splits[tx.user]);
      assert !GroupTxOk(db'.groups, db'.txs, id, db'.groupTxs[id]);
    } else {
      PersonalCommandKeeps(db, UpsertTx(caller, req), now, db');
    }
  }
}
