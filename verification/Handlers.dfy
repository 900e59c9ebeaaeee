/** What each handler answers and what it does to the tables when the answer is Ok. A handler is
    one database transaction: any other answer leaves the tables as they were. */
module Handlers {
  import opened Wrappers
  import opened Ledger
  import opened Splits

  datatype Response = Ok | BadRequest | Forbidden | NotFound | Conflict(code: string) | ServerError

  /** Fields a PATCH may leave out. */
  datatype Patch = Patch(
    category: Option<string>, date: Option<Time>, description: Option<string>, notes: Option<string>)

  datatype CreateGroupTxRequest = CreateGroupTxRequest(
    id: Uuid, paidBy: Uuid, total: Amount, details: Details, splits: seq<SplitInput>, updatedAt: Option<Time>)

  datatype UpdateGroupTxRequest = UpdateGroupTxRequest(
    paidBy: Option<Uuid>, patch: Patch, total: Option<Amount>, splits: seq<SplitInput>, updatedAt: Option<Time>)

  datatype UpsertTxRequest = UpsertTxRequest(
    id: Uuid, kind: Kind, amount: Amount, details: Details, updatedAt: Option<Time>)

  datatype UpdateTxRequest = UpdateTxRequest(kind: Option<Kind>, amount: Option<Amount>, patch: Patch)

  const NO_PATCH := Patch(None, None, None, None)

  /** A soft-deleted row is kept for a day (in seconds). */
  const RETENTION: Time := 86400

  function OrElse<T>(o: Option<T>, default: T): T {
    if o.Some? then o.value else default
  }

  function Patched(d: Details, p: Patch): Details {
    Details(
      OrElse(p.category, d.category), OrElse(p.date, d.date),
      if p.description.Some? then p.description else d.description,
      if p.notes.Some? then p.notes else d.notes)
  }

  predicate IsMember(db: Tables, g: Uuid, u: Uuid) {
    g in db.groups && !db.groups[g].isDeleted && u in db.groups[g].members
  }

  /** COUNT(DISTINCT currency) <= 1 over those of `us` that are users. */
  predicate OneCurrency(db: Tables, us: set<Uuid>) {
    forall a, b :: a in us && b in us && a in db.currencies && b in db.currencies ==>
        db.currencies[a] == db.currencies[b]
  }

  // ----- Shared transactions -----

  /** The unique key (group_transaction_id, user_id) is hit: a user with no split is named twice. */
  predicate RepeatsNewUser(desired: seq<SplitInput>, splits: map<Uuid, Split>) {
    exists i, j :: 0 <= i < j < |desired| && desired[i].user == desired[j].user && desired[j].user !in splits
  }

  /** The loops run into a constraint: that key, or a positive amount that rounds to nothing. */
  predicate Refused(desired: seq<SplitInput>, splits: map<Uuid, Split>) {
    RepeatsNewUser(desired, splits) || !AllStorable(desired)
  }

  function OldSplits(db: Tables, id: Uuid): map<Uuid, Split> {
    if id in db.groupTxs then db.groupTxs[id].splits else map[]
  }

  function CreateGroupTxResult(db: Tables, caller: Uuid, g: Uuid, req: CreateGroupTxRequest, now: Time): Response {
    if !IsMember(db, g, caller) then Forbidden
    else if req.total <= 0.0 || |req.splits| == 0 then BadRequest
    else if exists s :: s in req.splits && s.amount <= 0.0 then BadRequest
    else if InputSum(req.splits) != req.total then BadRequest
    else if exists u :: u in Users(req.splits) + {req.paidBy} && !IsMember(db, g, u) then BadRequest
    else if !OneCurrency(db, Users(req.splits) + {req.paidBy}) then BadRequest
    else UpsertGroupTxResult(db, g, req, now)
  }

  /** The part of it that runs in the database transaction. */
  function UpsertGroupTxResult(db: Tables, g: Uuid, req: CreateGroupTxRequest, now: Time): Response {
    if !Storable(req.total) then ServerError
    else if req.id in db.groupTxs && db.groupTxs[req.id].group != g then Conflict("ID_OWNED_BY_ANOTHER_GROUP")
    else if req.id in db.groupTxs && db.groupTxs[req.id].updatedAt > OrElse(req.updatedAt, now)
      then Conflict("STALE_WRITE")
    else if Refused(req.splits, OldSplits(db, req.id)) then ServerError
    else Ok
  }

  /** The loops of applySplitsInPlace: of the amounts for one user the last one stands. */
  ghost predicate SplitsApplied(
    txs: map<Uuid, Tx>, splits: map<Uuid, Split>, gid: Uuid, desired: seq<SplitInput>, details: Details, now: Time,
    txs': map<Uuid, Tx>, splits': map<Uuid, Split>)
  {
    && splits'.Keys == Users(desired)
    && (forall u :: u in splits' ==> splits'[u].amount == AmountOf(desired, u))
    && (LinksOk(txs, gid, splits) ==> Served(txs, splits, gid, desired, details, now, txs', splits'))
  }

  ghost predicate CreateGroupTxEffect(db: Tables, g: Uuid, req: CreateGroupTxRequest, now: Time, db': Tables) {
    && req.id in db'.groupTxs
    && var splits' := db'.groupTxs[req.id].splits;
       && db' == db.(
         groupTxs := db.groupTxs[req.id :=
           GroupTx(g, req.paidBy, Rounded(req.total), req.details, false, OrElse(req.updatedAt, now), splits')],
         txs := db'.txs)
       && SplitsApplied(db.txs, OldSplits(db, req.id), req.id, req.splits, req.details, now, db'.txs, splits')
  }

  predicate Involved(gt: GroupTx, u: Uuid) {
    gt.paidBy == u || u in gt.splits
  }

  function UpdateGroupTxResult(
    db: Tables, caller: Uuid, g: Uuid, id: Uuid, req: UpdateGroupTxRequest, now: Time): Response {
    if !LiveTx(db.groupTxs, g, id) then NotFound
    else
      var gt := db.groupTxs[id];
      var payer := OrElse(req.paidBy, gt.paidBy);
      if !Involved(gt, caller) then Forbidden
      else if exists s :: s in req.splits && s.amount == 0.0 then BadRequest
      else if req.paidBy.Some? && !IsMember(db, g, payer) then BadRequest
      else if req.total.Some? && (req.total.value <= 0.0 || |req.splits| == 0) then BadRequest
      else if |req.splits| > 0 && exists s :: s in req.splits && s.amount < 0.0 then BadRequest
      else if |req.splits| > 0 && InputSum(req.splits) != OrElse(req.total, gt.total as real) then BadRequest
      else if |req.splits| > 0 && exists u :: u in Users(req.splits) && !IsMember(db, g, u) then BadRequest
      else if |req.splits| > 0 && !OneCurrency(db, Users(req.splits) + {payer}) then BadRequest
      else if |req.splits| == 0 && req.paidBy.Some? && !OneCurrency(db, gt.splits.Keys + {payer}) then BadRequest
      else if |req.splits| == 0 && req.paidBy.None? && req.patch == NO_PATCH then BadRequest
      else RewriteGroupTxResult(gt, req, now)
  }

  /** The part of it that runs in the database transaction. */
  function RewriteGroupTxResult(gt: GroupTx, req: UpdateGroupTxRequest, now: Time): Response {
    if gt.updatedAt > OrElse(req.updatedAt, now)
      then (if req.updatedAt.Some? then Conflict("STALE_WRITE") else NotFound)
    else if req.total.Some? && !Storable(req.total.value) then ServerError
    else if Refused(req.splits, gt.splits) then ServerError
    else Ok
  }

  /** The row after the UPDATE, before its splits are touched. */
  function UpdatedRow(gt: GroupTx, req: UpdateGroupTxRequest, now: Time): GroupTx {
    gt.(paidBy := OrElse(req.paidBy, gt.paidBy),
        total := if req.total.Some? then Rounded(req.total.value) else gt.total,
        details := Patched(gt.details, req.patch),
        updatedAt := OrElse(req.updatedAt, now))
  }

  /** Without splits, only category, date, description and notes reach the live personal rows. */
  function SyncedTxs(txs: map<Uuid, Tx>, id: Uuid, patch: Patch, now: Time): map<Uuid, Tx> {
    map p | p in txs ::
      if patch != NO_PATCH && txs[p].groupTx == Some(id) && !txs[p].isDeleted
      then txs[p].(details := Patched(txs[p].details, patch), updatedAt := now)
      else txs[p]
  }

  ghost predicate UpdateGroupTxEffect(db: Tables, id: Uuid, req: UpdateGroupTxRequest, now: Time, db': Tables)
    requires id in db.groupTxs
  {
    var row := UpdatedRow(db.groupTxs[id], req, now);
    if |req.splits| == 0 then
      db' == db.(groupTxs := db.groupTxs[id := row], txs := SyncedTxs(db.txs, id, req.patch, now))
    else
      && id in db'.groupTxs
      && var splits' := db'.groupTxs[id].splits;
         && db' == db.(groupTxs := db.groupTxs[id := row.(splits := splits')], txs := db'.txs)
         && SplitsApplied(db.txs, row.splits, id, req.splits, row.details, now, db'.txs, splits')
  }

  function DeleteGroupTxResult(db: Tables, caller: Uuid, g: Uuid, id: Uuid): Response {
    if !IsMember(db, g, caller) then Forbidden
    else if id !in db.groupTxs || db.groupTxs[id].group != g then NotFound
    else if !Involved(db.groupTxs[id], caller) then Forbidden
    else Ok
  }

  function SoftDeletedTxs(txs: map<Uuid, Tx>, ids: set<Uuid>, now: Time): map<Uuid, Tx> {
    map p | p in txs ::
      if txs[p].groupTx.Some? && txs[p].groupTx.value in ids then txs[p].(isDeleted := true, updatedAt := now)
      else txs[p]
  }

  function DeleteGroupTxEffect(db: Tables, id: Uuid, now: Time): Tables
    requires id in db.groupTxs
  {
    db.(txs := SoftDeletedTxs(db.txs, {id}, now),
        groupTxs := db.groupTxs[id := db.groupTxs[id].(isDeleted := true, updatedAt := now)])
  }

  // ----- Settlements -----

  datatype SettlementEffect = SettlementEffect(debtCleared: Amount, excess: Amount)

  /** How much of a settlement clears debt, and how much is fresh cash flow. */
  function ComputeSettlementEffect(debt: Amount, amount: Amount): SettlementEffect {
    var covered := if debt < 0.0 then 0.0 else debt;
    var excess := if amount - covered < 0.0 then 0.0 else amount - covered;
    SettlementEffect(amount - excess, excess)
  }

  /** A positive excess is booked, and can be only if its rows do not round to nothing. */
  predicate Bookable(excess: Amount) {
    excess > 0.0 ==> Storable(excess)
  }

  /** The excess in whole cents. */
  function Excess(debt: Cents, amount: Cents): Cents {
    Max(0, amount - Max(0, debt))
  }

  /** Rounding the excess over a debt is the excess of the rounded amount; it cannot be booked if and
      only if the amount exceeds the debt by less than half a cent. */
  lemma ExcessRounds(debt: Cents, amount: Amount)
    requires amount > 0.0
    ensures Rounded(ComputeSettlementEffect(debt as real, amount).excess) == Excess(debt, Rounded(amount))
    ensures Bookable(ComputeSettlementEffect(debt as real, amount).excess) <==>
            !(0.0 < amount - Max(0, debt) as real < 0.5)
  {
    var covered := Max(0, debt);
    var excess := amount - covered as real;
    if excess >= 0.0 {
      assert (excess + 0.5).Floor == (amount + 0.5).Floor - covered;
    }
  }

  lemma ExcessIsNotNegative(debt: Amount, amount: Amount)
    ensures ComputeSettlementEffect(debt, amount).excess >= 0.0
  {
  }

  function SettlementRow(user: Uuid, kind: Kind, amount: Cents, sid: Uuid, notes: Option<string>, now: Time): Tx {
    var description := if kind.Income? then "Settlement excess received" else "Settlement excess paid";
    Tx(user, kind, amount, Details("other", now, Some(description), notes), None, Some(sid), false, now)
  }

  /** An income row for the recipient and an expense row for the payer, when there is an excess. */
  ghost predicate PairBooked(
    txs: map<Uuid, Tx>, sid: Uuid, s: Settlement, excess: Cents, now: Time, txs': map<Uuid, Tx>) {
    if excess > 0 then
      exists p, q :: p !in txs && q !in txs && p != q &&
        txs' == txs[p := SettlementRow(s.to, Income, excess, sid, s.notes, now)]
                   [q := SettlementRow(s.from, Expense, excess, sid, s.notes, now)]
    else txs' == txs
  }

  /** The row goes in first, so the debt that is read already counts it. */
  ghost function DebtRead(db: Tables, sid: Uuid, s: Settlement): Cents {
    PairwiseDebt(db.groupTxs, db.settlements[sid := s], s.group, s.from, s.to, None)
  }

  ghost function CreateSettlementResult(
    db: Tables, caller: Uuid, sid: Uuid, g: Uuid, from: Uuid, to: Uuid, amount: Amount,
    notes: Option<string>, now: Time): Response
  {
    if amount == 0.0 then BadRequest
    else if !IsMember(db, g, caller) then Forbidden
    else if !IsMember(db, g, from) || !IsMember(db, g, to) || from == to then BadRequest
    else if caller != from && caller != to then Forbidden
    else if amount <= 0.0 || !OneCurrency(db, {from, to}) then BadRequest
    else if !Storable(amount) || sid in db.settlements then ServerError
    else
      var s := Settlement(g, from, to, Rounded(amount), notes, false, now);
      if Bookable(ComputeSettlementEffect(DebtRead(db, sid, s) as real, amount).excess) then Ok else ServerError
  }

  ghost predicate CreateSettlementEffect(db: Tables, sid: Uuid, s: Settlement, now: Time, db': Tables) {
    && sid !in db.settlements
    && db' == db.(settlements := db.settlements[sid := s], txs := db'.txs)
    && PairBooked(db.txs, sid, s, Excess(DebtRead(db, sid, s), s.amount), now, db'.txs)
  }

  ghost function UpdateSettlementResult(
    db: Tables, caller: Uuid, sid: Uuid, amount: Option<Amount>, notes: Option<string>, now: Time): Response
  {
    if sid !in db.settlements || db.settlements[sid].isDeleted then NotFound
    else
      var s := db.settlements[sid];
      if caller != s.from && caller != s.to then Forbidden
      else if amount.Some? && amount.value <= 0.0 then BadRequest
      else if amount.None? && notes.None? then BadRequest
      else RewriteSettlementResult(db, sid, amount, notes, now)
  }

  /** The part of it that runs in the database transaction. */
  ghost function RewriteSettlementResult(
    db: Tables, sid: Uuid, amount: Option<Amount>, notes: Option<string>, now: Time): Response
    requires sid in db.settlements
  {
    var s := db.settlements[sid];
    if amount.None? then Ok
    else if !Storable(amount.value) then ServerError
    else if !OneCurrency(db, {s.from, s.to}) then BadRequest
    else
      var debt := DebtWithout(Dropped(db, sid, amount, notes, now), sid, s);
      if Bookable(ComputeSettlementEffect(debt as real, amount.value).excess) then Ok else ServerError
  }

  /** The debt without the settlement itself. */
  ghost function DebtWithout(db: Tables, sid: Uuid, s: Settlement): Cents {
    PairwiseDebt(db.groupTxs, db.settlements, s.group, s.from, s.to, Some(sid))
  }

  function UpdatedSettlement(s: Settlement, amount: Option<Amount>, notes: Option<string>, now: Time): Settlement {
    s.(amount := if amount.Some? then Rounded(amount.value) else s.amount,
       notes := if notes.Some? then notes else s.notes,
       updatedAt := now)
  }

  /** The tables when the settlement has its new amount and its linked rows are gone. */
  function Dropped(db: Tables, sid: Uuid, amount: Option<Amount>, notes: Option<string>, now: Time): Tables
    requires sid in db.settlements
  {
    var s := UpdatedSettlement(db.settlements[sid], amount, notes, now);
    HardDeleted(db.(settlements := db.settlements[sid := s]), RowsOfSettlement(db.txs, sid))
  }

  function RowsOfSettlement(txs: map<Uuid, Tx>, sid: Uuid): set<Uuid> {
    set p | p in txs && txs[p].settlement == Some(sid)
  }

  /** ON DELETE SET NULL on group_transaction_splits.transaction_id. */
  function Unlinked(gts: map<Uuid, GroupTx>, gone: set<Uuid>): map<Uuid, GroupTx> {
    map id | id in gts :: gts[id].(splits := UnlinkedSplits(gts[id].splits, gone))
  }

  function UnlinkedSplits(splits: map<Uuid, Split>, gone: set<Uuid>): map<Uuid, Split> {
    map u | u in splits ::
      if splits[u].txId.Some? && splits[u].txId.value in gone then splits[u].(txId := None) else splits[u]
  }

  function HardDeleted(db: Tables, gone: set<Uuid>): Tables {
    db.(txs := db.txs - gone, groupTxs := Unlinked(db.groupTxs, gone))
  }

  function NotesSynced(txs: map<Uuid, Tx>, sid: Uuid, notes: string, now: Time): map<Uuid, Tx> {
    map p | p in txs ::
      if txs[p].settlement == Some(sid) && !txs[p].isDeleted
      then txs[p].(details := txs[p].details.(notes := Some(notes)), updatedAt := now)
      else txs[p]
  }

  ghost predicate UpdateSettlementEffect(
    db: Tables, sid: Uuid, amount: Option<Amount>, notes: Option<string>, now: Time, db': Tables)
    requires sid in db.settlements && (amount.Some? || notes.Some?)
  {
    var s := UpdatedSettlement(db.settlements[sid], amount, notes, now);
    if amount.Some? then
      var dropped := Dropped(db, sid, amount, notes, now);
      && db' == dropped.(txs := db'.txs)
      && PairBooked(dropped.txs, sid, s, Excess(DebtWithout(dropped, sid, s), s.amount), now, db'.txs)
    else
      db' == db.(settlements := db.settlements[sid := s], txs := NotesSynced(db.txs, sid, notes.value, now))
  }

  function DeleteSettlementResult(db: Tables, caller: Uuid, sid: Uuid): Response {
    if sid !in db.settlements || db.settlements[sid].isDeleted then NotFound
    else if caller != db.settlements[sid].from && caller != db.settlements[sid].to then Forbidden
    else Ok
  }

  function DeleteSettlementEffect(db: Tables, sid: Uuid, now: Time): Tables
    requires sid in db.settlements
  {
    db.(txs := map p | p in db.txs ::
          if db.txs[p].settlement == Some(sid) then db.txs[p].(isDeleted := true, updatedAt := now) else db.txs[p],
        settlements := db.settlements[sid := db.settlements[sid].(isDeleted := true, updatedAt := now)])
  }

  // ----- Groups and members -----

  function AddMemberResult(db: Tables, caller: Uuid, g: Uuid, newUser: Uuid): Response {
    if !IsMember(db, g, caller) then Forbidden
    else if newUser !in db.currencies || IsMember(db, g, newUser) then BadRequest
    else Ok
  }

  ghost function RemoveMemberResult(db: Tables, caller: Uuid, g: Uuid, target: Uuid): Response {
    if target == caller then BadRequest
    else if !IsMember(db, g, caller) then Forbidden
    else if target == db.groups[g].createdBy then BadRequest
    else if !IsMember(db, g, target) then NotFound
    else if UserGroupBalance(db.groupTxs, db.settlements, g, target) != 0 then BadRequest
    else Ok
  }

  ghost function LeaveGroupResult(db: Tables, caller: Uuid, g: Uuid): Response {
    if !IsMember(db, g, caller) then Forbidden
    else if db.groups[g].createdBy == caller then BadRequest
    else if UserGroupBalance(db.groupTxs, db.settlements, g, caller) != 0 then BadRequest
    else Ok
  }

  function WithMembers(db: Tables, g: Uuid, members: set<Uuid>): Tables
    requires g in db.groups
  {
    db.(groups := db.groups[g := db.groups[g].(members := members)])
  }

  function DeleteGroupResult(db: Tables, caller: Uuid, g: Uuid): Response {
    if g !in db.groups || db.groups[g].isDeleted then NotFound
    else if db.groups[g].createdBy != caller then Forbidden
    else Ok
  }

  function TxsOfGroup(gts: map<Uuid, GroupTx>, g: Uuid): set<Uuid> {
    set id | id in gts && gts[id].group == g
  }

  function DeleteGroupEffect(db: Tables, g: Uuid, now: Time): Tables
    requires g in db.groups
  {
    db.(txs := SoftDeletedTxs(db.txs, TxsOfGroup(db.groupTxs, g), now),
        groupTxs := map id | id in db.groupTxs ::
          if db.groupTxs[id].group == g then db.groupTxs[id].(isDeleted := true, updatedAt := now) else db.groupTxs[id],
        settlements := map id | id in db.settlements ::
          if db.settlements[id].group == g then db.settlements[id].(isDeleted := true, updatedAt := now)
          else db.settlements[id],
        groups := db.groups[g := db.groups[g].(isDeleted := true, updatedAt := now)])
  }

  // ----- Personal rows -----

  function UpsertTxResult(db: Tables, caller: Uuid, req: UpsertTxRequest, now: Time): Response {
    if req.amount <= 0.0 then BadRequest
    else if !Storable(req.amount) then ServerError
    else if req.id in db.txs && db.txs[req.id].user != caller then Conflict("ID_OWNED_BY_ANOTHER_USER")
    else if req.id in db.txs && db.txs[req.id].updatedAt > OrElse(req.updatedAt, now) then Conflict("STALE_WRITE")
    else Ok
  }

  function UpsertTxEffect(db: Tables, caller: Uuid, req: UpsertTxRequest, now: Time): Tables {
    var version := OrElse(req.updatedAt, now);
    var row :=
      if req.id in db.txs
      then db.txs[req.id].(
        kind := req.kind, amount := Rounded(req.amount), details := req.details, updatedAt := version)
      else Tx(caller, req.kind, Rounded(req.amount), req.details, None, None, false, version);
    db.(txs := db.txs[req.id := row])
  }

  function UpdateTxResult(db: Tables, caller: Uuid, id: Uuid, req: UpdateTxRequest): Response {
    if id !in db.txs || db.txs[id].isDeleted then NotFound
    else if db.txs[id].user != caller then Forbidden
    else if db.txs[id].groupTx.Some? then BadRequest
    else if req.amount.Some? && req.amount.value <= 0.0 then BadRequest
    else if req == UpdateTxRequest(None, None, NO_PATCH) then BadRequest
    else if req.amount.Some? && !Storable(req.amount.value) then ServerError
    else Ok
  }

  function UpdateTxEffect(db: Tables, id: Uuid, req: UpdateTxRequest, now: Time): Tables
    requires id in db.txs
  {
    var tx := db.txs[id];
    db.(txs := db.txs[id := tx.(
          kind := OrElse(req.kind, tx.kind),
          amount := if req.amount.Some? then Rounded(req.amount.value) else tx.amount,
          details := Patched(tx.details, req.patch), updatedAt := now)])
  }

  function DeleteTxResult(db: Tables, caller: Uuid, id: Uuid): Response {
    if id !in db.txs || db.txs[id].isDeleted then NotFound
    else if db.txs[id].user != caller then Forbidden
    else if db.txs[id].groupTx.Some? then BadRequest
    else Ok
  }

  // ----- The purge job: four statements, each on its own -----

  predicate Stale(isDeleted: bool, updatedAt: Time, now: Time) {
    isDeleted && updatedAt < now - RETENTION
  }

  /** Deleting shared transactions takes their splits along and clears group_transaction_id. */
  function WithoutGroupTxs(db: Tables, gone: set<Uuid>): Tables {
    db.(groupTxs := db.groupTxs - gone,
        txs := map p | p in db.txs ::
          if db.txs[p].groupTx.Some? && db.txs[p].groupTx.value in gone then db.txs[p].(groupTx := None) else db.txs[p])
  }

  function WithoutSettlements(db: Tables, gone: set<Uuid>): Tables {
    db.(settlements := db.settlements - gone,
        txs := map p | p in db.txs ::
          if db.txs[p].settlement.Some? && db.txs[p].settlement.value in gone then db.txs[p].(settlement := None)
          else db.txs[p])
  }

  /** Deleting groups takes their shared transactions, settlements and members along. */
  function WithoutGroups(db: Tables, gone: set<Uuid>): Tables {
    var gts := set id | id in db.groupTxs && db.groupTxs[id].group in gone;
    var sts := set id | id in db.settlements && db.settlements[id].group in gone;
    WithoutSettlements(WithoutGroupTxs(db, gts), sts).(groups := db.groups - gone)
  }

  function StaleTxs(db: Tables, now: Time): set<Uuid> {
    set p | p in db.txs && Stale(db.txs[p].isDeleted, db.txs[p].updatedAt, now)
  }

  function StaleGroupTxs(db: Tables, now: Time): set<Uuid> {
    set id | id in db.groupTxs && Stale(db.groupTxs[id].isDeleted, db.groupTxs[id].updatedAt, now)
  }

  function StaleSettlements(db: Tables, now: Time): set<Uuid> {
    set id | id in db.settlements && Stale(db.settlements[id].isDeleted, db.settlements[id].updatedAt, now)
  }

  function StaleGroups(db: Tables, now: Time): set<Uuid> {
    set g | g in db.groups && Stale(db.groups[g].isDeleted, db.groups[g].updatedAt, now)
  }
}
