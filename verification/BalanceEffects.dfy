/** How each handler moves the balances of a group, said with the request and the row it is about. */
module BalanceEffects {
  import opened Wrappers
  import opened Sums
  import opened Ledger
  import opened Splits
  import opened Handlers
  import opened GroupLedger
  import opened References

  // ----- One row's part of a balance -----

  /** What a live transaction with this payer, this total and these shares gives `u`. */
  function Stake(paidBy: Uuid, total: Cents, share: Cents, u: Uuid): Cents {
    (if paidBy == u then total else 0) - share
  }

  /** What transaction `id` gives `u` in group `g`. */
  function StakeIn(gts: map<Uuid, GroupTx>, g: Uuid, u: Uuid, id: Uuid): Cents {
    if LiveTx(gts, g, id) then Stake(gts[id].paidBy, gts[id].total, SplitAmounts(gts[id].splits)(u), u) else 0
  }

  /** What a transfer gives `u`. */
  function Transfer(from: Uuid, to: Uuid, amount: Cents, u: Uuid): Cents {
    (if from == u then amount else 0) - (if to == u then amount else 0)
  }

  function TransferIn(sts: map<Uuid, Settlement>, g: Uuid, u: Uuid, id: Uuid): Cents {
    if LiveSettlement(sts, g, id) then Transfer(sts[id].from, sts[id].to, sts[id].amount, u) else 0
  }

  ghost function StakeTerm(gts: map<Uuid, GroupTx>, g: Uuid, u: Uuid): Uuid -> int {
    (id: Uuid) => StakeIn(gts, g, u, id)
  }

  ghost function TransferGain(sts: map<Uuid, Settlement>, g: Uuid, u: Uuid): Uuid -> int {
    (id: Uuid) => TransferIn(sts, g, u, id)
  }

  /** The balance row by row. */
  lemma BalanceByRows(gts: map<Uuid, GroupTx>, sts: map<Uuid, Settlement>, g: Uuid, u: Uuid)
    ensures UserGroupBalance(gts, sts, g, u) ==
            Sum(gts.Keys, StakeTerm(gts, g, u)) + Sum(sts.Keys, TransferGain(sts, g, u))
  {
    SumLinear(gts.Keys, PaidTerm(gts, g, u), OwedTerm(gts, g, u), StakeTerm(gts, g, u), -1);
    SumLinear(sts.Keys, SentTerm(sts, g, u), ReceivedTerm(sts, g, u), TransferGain(sts, g, u), -1);
  }

  lemma OneTxChanged(
    gts: map<Uuid, GroupTx>, gts': map<Uuid, GroupTx>, sts: map<Uuid, Settlement>, id: Uuid, g: Uuid, u: Uuid)
    requires gts'.Keys == gts.Keys + {id} && forall k :: k in gts && k != id ==> gts'[k] == gts[k]
    ensures UserGroupBalance(gts', sts, g, u) ==
            UserGroupBalance(gts, sts, g, u) - StakeIn(gts, g, u, id) + StakeIn(gts', g, u, id)
  {
    hide UserGroupBalance, Sum, SplitAmounts;
    BalanceByRows(gts, sts, g, u);
    BalanceByRows(gts', sts, g, u);
    OneTermChanged(gts.Keys, gts'.Keys, StakeTerm(gts, g, u), StakeTerm(gts', g, u), id);
  }

  lemma OneSettlementChanged(
    gts: map<Uuid, GroupTx>, sts: map<Uuid, Settlement>, sts': map<Uuid, Settlement>, id: Uuid, g: Uuid, u: Uuid)
    requires sts'.Keys == sts.Keys + {id} && forall k :: k in sts && k != id ==> sts'[k] == sts[k]
    ensures UserGroupBalance(gts, sts', g, u) ==
            UserGroupBalance(gts, sts, g, u) - TransferIn(sts, g, u, id) + TransferIn(sts', g, u, id)
  {
    hide UserGroupBalance, Sum;
    BalanceByRows(gts, sts, g, u);
    BalanceByRows(gts, sts', g, u);
    OneTermChanged(sts.Keys, sts'.Keys, TransferGain(sts, g, u), TransferGain(sts', g, u), id);
  }

  /** Rows with equal stakes give equal balances; rows without a stake may be there or not. */
  lemma SameStakes(
    gts: map<Uuid, GroupTx>, gts': map<Uuid, GroupTx>, sts: map<Uuid, Settlement>, sts': map<Uuid, Settlement>,
    g: Uuid, u: Uuid)
    requires gts'.Keys <= gts.Keys && sts'.Keys <= sts.Keys
    requires forall id :: id in gts ==> StakeIn(gts', g, u, id) == StakeIn(gts, g, u, id)
    requires forall id :: id in sts ==> TransferIn(sts', g, u, id) == TransferIn(sts, g, u, id)
    ensures UserGroupBalance(gts', sts', g, u) == UserGroupBalance(gts, sts, g, u)
  {
    hide UserGroupBalance, Sum, SplitAmounts;
    BalanceByRows(gts, sts, g, u);
    BalanceByRows(gts', sts', g, u);
    SumWiden(gts'.Keys, gts.Keys, StakeTerm(gts', g, u));
    SumAgree(gts.Keys, StakeTerm(gts', g, u), StakeTerm(gts, g, u));
    SumWiden(sts'.Keys, sts.Keys, TransferGain(sts', g, u));
    SumAgree(sts.Keys, TransferGain(sts', g, u), TransferGain(sts, g, u));
  }

  // ----- What a command gives a user -----

  /** How much an accepted command raises the balance of `u` in group `g`. */
  ghost function Gain(db: Tables, c: Command, g: Uuid, u: Uuid): Cents {
    match c
    case CreateGroupTx(_, g', req) =>
      if g' != g then 0
      else Stake(req.paidBy, Rounded(req.total), AmountOf(req.splits, u), u) - StakeIn(db.groupTxs, g, u, req.id)
    case UpdateGroupTx(_, g', id, req) =>
      if g' != g || id !in db.groupTxs then 0
      else
        var gt := db.groupTxs[id];
        var payer := if req.paidBy.Some? then req.paidBy.value else gt.paidBy;
        var total := if req.total.Some? then Rounded(req.total.value) else gt.total;
        var share := if req.splits == [] then SplitAmounts(gt.splits)(u) else AmountOf(req.splits, u);
        Stake(payer, total, share, u) - StakeIn(db.groupTxs, g, u, id)
    case DeleteGroupTx(_, g', id) => if g' == g then -StakeIn(db.groupTxs, g, u, id) else 0
    case CreateSettlement(_, _, g', from, to, amount, _) =>
      if g' == g then Transfer(from, to, Rounded(amount), u) else 0
    case UpdateSettlement(_, id, amount, _) =>
      if LiveSettlement(db.settlements, g, id) && amount.Some? then
        var s := db.settlements[id];
        Transfer(s.from, s.to, Rounded(amount.value) - s.amount, u)
      else 0
    case DeleteSettlement(_, id) => -TransferIn(db.settlements, g, u, id)
    case DeleteGroup(_, g') => if g' == g then -UserGroupBalance(db.groupTxs, db.settlements, g, u) else 0
    case _ => 0
  }

  lemma CreateGroupTxMoves(
    db: Tables, caller: Uuid, g': Uuid, req: CreateGroupTxRequest, now: Time, db': Tables, g: Uuid, u: Uuid)
    requires CreateGroupTxResult(db, caller, g', req, now) == Ok && CreateGroupTxEffect(db, g', req, now, db')
    ensures UserGroupBalance(db'.groupTxs, db'.settlements, g, u) ==
            UserGroupBalance(db.groupTxs, db.settlements, g, u) + Gain(db, CreateGroupTx(caller, g', req), g, u)
  {
    hide UserGroupBalance, Served, InputSum, OneCurrency, Refused, AmountOf, Rounded;
    OneTxChanged(db.groupTxs, db'.groupTxs, db.settlements, req.id, g, u);
    SharesAsked(db'.groupTxs[req.id].splits, req.splits, u);
  }

  /** The splits afterwards give `u` what was asked. */
  lemma SharesAsked(splits: map<Uuid, Split>, desired: seq<SplitInput>, u: Uuid)
    requires splits.Keys == Users(desired) && forall v :: v in splits ==> splits[v].amount == AmountOf(desired, v)
    ensures SplitAmounts(splits)(u) == AmountOf(desired, u)
  {
    if u !in Users(desired) {
      NobodyAsked(desired, u);
    }
  }

  lemma {:induction false} NobodyAsked(desired: seq<SplitInput>, u: Uuid)
    requires u !in Users(desired)
    ensures AmountOf(desired, u) == 0
  {
    if desired != [] {
      var n := |desired| - 1;
      assert desired[n] in desired && forall s :: s in desired[..n] ==> s in desired;
      NobodyAsked(desired[..n], u);
    }
  }

  lemma UpdateGroupTxMoves(
    db: Tables, caller: Uuid, g': Uuid, id: Uuid, req: UpdateGroupTxRequest, now: Time, db': Tables, g: Uuid, u: Uuid)
    requires UpdateGroupTxResult(db, caller, g', id, req, now) == Ok && UpdateGroupTxEffect(db, id, req, now, db')
    ensures UserGroupBalance(db'.groupTxs, db'.settlements, g, u) ==
            UserGroupBalance(db.groupTxs, db.settlements, g, u) + Gain(db, UpdateGroupTx(caller, g', id, req), g, u)
  {
    hide UserGroupBalance, UpdateGroupTxResult, Served, AmountOf, Rounded, Patched, SyncedTxs, Users;
    UpdatedTxIsLive(db, caller, g', id, req, now);
    OneTxChanged(db.groupTxs, db'.groupTxs, db.settlements, id, g, u);
    if |req.splits| > 0 {
      SharesAsked(db'.groupTxs[id].splits, req.splits, u);
    }
  }

  lemma UpdatedTxIsLive(db: Tables, caller: Uuid, g: Uuid, id: Uuid, req: UpdateGroupTxRequest, now: Time)
    requires UpdateGroupTxResult(db, caller, g, id, req, now) == Ok
    ensures LiveTx(db.groupTxs, g, id)
  {
    hide InputSum, OneCurrency, Refused, Rounded, IsMember, Users, Involved;
  }

  lemma CreateSettlementMoves(db: Tables, c: Command, now: Time, db': Tables, g: Uuid, u: Uuid)
    requires c.CreateSettlement? && Result(db, c, now) == Ok && Step(db, c, now, db')
    ensures UserGroupBalance(db'.groupTxs, db'.settlements, g, u) ==
            UserGroupBalance(db.groupTxs, db.settlements, g, u) + Gain(db, c, g, u)
  {
    hide UserGroupBalance, PairwiseDebt, PairBooked, Rounded, OneCurrency, IsMember;
    OneSettlementChanged(db.groupTxs, db.settlements, db'.settlements, c.id, g, u);
  }

  lemma UpdateSettlementMoves(db: Tables, c: Command, now: Time, db': Tables, g: Uuid, u: Uuid)
    requires c.UpdateSettlement? && Result(db, c, now) == Ok && Step(db, c, now, db')
    ensures UserGroupBalance(db'.groupTxs, db'.settlements, g, u) ==
            UserGroupBalance(db.groupTxs, db.settlements, g, u) + Gain(db, c, g, u)
  {
    hide Step, Result, UserGroupBalance, Unlinked, RowsOfSettlement, Rounded, Transfer, StakeIn, SplitAmounts;
    UpdatedTables(db, c, now, db');
    var s := UpdatedSettlement(db.settlements[c.id], c.newAmount, c.newNotes, now);
    AmendedMoves(db, c.id, s, db'.groupTxs, g, u);
  }

  lemma AmendedMoves(db: Tables, id: Uuid, s: Settlement, gts': map<Uuid, GroupTx>, g: Uuid, u: Uuid)
    requires id in db.settlements && !db.settlements[id].isDeleted
    requires s == db.settlements[id].(amount := s.amount, notes := s.notes, updatedAt := s.updatedAt)
    requires gts' == db.groupTxs || gts' == Unlinked(db.groupTxs, RowsOfSettlement(db.txs, id))
    ensures var moved := if s.group == g then Transfer(s.from, s.to, s.amount - db.settlements[id].amount, u) else 0;
            && UserGroupBalance(gts', db.settlements[id := s], g, u) ==
               UserGroupBalance(db.groupTxs, db.settlements, g, u) + moved
            && (s.amount == db.settlements[id].amount ==> moved == 0)
  {
    hide UserGroupBalance, Unlinked;
    UnlinkedSameStakes(db, RowsOfSettlement(db.txs, id), db.settlements[id := s], g, u);
    AmendedTransfer(db.groupTxs, db.settlements, id, s, g, u);
  }

  lemma AmendedTransfer(
    gts: map<Uuid, GroupTx>, sts: map<Uuid, Settlement>, id: Uuid, s: Settlement, g: Uuid, u: Uuid)
    requires id in sts && !sts[id].isDeleted && !s.isDeleted
    requires s.group == sts[id].group && s.from == sts[id].from && s.to == sts[id].to
    ensures UserGroupBalance(gts, sts[id := s], g, u) ==
            UserGroupBalance(gts, sts, g, u)
            + if s.group == g then Transfer(s.from, s.to, s.amount - sts[id].amount, u) else 0
  {
    hide UserGroupBalance;
    OneSettlementChanged(gts, sts, sts[id := s], id, g, u);
  }

  lemma UpdatedTables(db: Tables, c: Command, now: Time, db': Tables)
    requires c.UpdateSettlement? && Result(db, c, now) == Ok && Step(db, c, now, db')
    ensures c.id in db.settlements && !db.settlements[c.id].isDeleted
    ensures db'.settlements == db.settlements[c.id :=
              UpdatedSettlement(db.settlements[c.id], c.newAmount, c.newNotes, now)]
    ensures db'.groupTxs == db.groupTxs || db'.groupTxs == Unlinked(db.groupTxs, RowsOfSettlement(db.txs, c.id))
  {
    hide RewriteSettlementResult, PairwiseDebt, PairBooked, Rounded, UpdatedSettlement, UnlinkedSplits;
  }

  lemma DeleteSettlementMoves(db: Tables, c: Command, now: Time, db': Tables, g: Uuid, u: Uuid)
    requires c.DeleteSettlement? && Result(db, c, now) == Ok && Step(db, c, now, db')
    ensures UserGroupBalance(db'.groupTxs, db'.settlements, g, u) ==
            UserGroupBalance(db.groupTxs, db.settlements, g, u) + Gain(db, c, g, u)
  {
    hide UserGroupBalance;
    OneSettlementChanged(db.groupTxs, db.settlements, db'.settlements, c.id, g, u);
  }

  /** Clearing the links of splits moves nothing. */
  lemma UnlinkedSameStakes(db: Tables, gone: set<Uuid>, sts: map<Uuid, Settlement>, g: Uuid, u: Uuid)
    ensures UserGroupBalance(Unlinked(db.groupTxs, gone), sts, g, u) == UserGroupBalance(db.groupTxs, sts, g, u)
  {
    var gts' := Unlinked(db.groupTxs, gone);
    forall id | id in db.groupTxs
      ensures StakeIn(gts', g, u, id) == StakeIn(db.groupTxs, g, u, id)
    {
      assert SplitAmounts(gts'[id].splits)(u) == SplitAmounts(db.groupTxs[id].splits)(u);
    }
    hide UserGroupBalance;
    SameStakes(db.groupTxs, gts', sts, sts, g, u);
  }

  lemma DeleteGroupTxMoves(db: Tables, c: Command, now: Time, db': Tables, g: Uuid, u: Uuid)
    requires c.DeleteGroupTx? && Result(db, c, now) == Ok && Step(db, c, now, db')
    ensures UserGroupBalance(db'.groupTxs, db'.settlements, g, u) ==
            UserGroupBalance(db.groupTxs, db.settlements, g, u) + Gain(db, c, g, u)
  {
    hide UserGroupBalance, IsMember, Involved, SplitAmounts;
    OneTxChanged(db.groupTxs, db'.groupTxs, db.settlements, c.id, g, u);
  }

  lemma DeleteGroupMoves(db: Tables, g': Uuid, now: Time, g: Uuid, u: Uuid)
    requires g' in db.groups
    ensures var db' := DeleteGroupEffect(db, g', now);
            UserGroupBalance(db'.groupTxs, db'.settlements, g, u) ==
            if g == g' then 0 else UserGroupBalance(db.groupTxs, db.settlements, g, u)
  {
    var db' := DeleteGroupEffect(db, g', now);
    hide UserGroupBalance, SplitAmounts;
    if g == g' {
      BalanceByRows(db'.groupTxs, db'.settlements, g, u);
      SumZero(db'.groupTxs.Keys, StakeTerm(db'.groupTxs, g, u));
      SumZero(db'.settlements.Keys, TransferGain(db'.settlements, g, u));
    } else {
      SameStakes(db.groupTxs, db'.groupTxs, db.settlements, db'.settlements, g, u);
    }
  }

  /** The purge takes deleted rows only, and the rows of deleted groups are deleted. */
  lemma PurgeMoves(db: Tables, c: Command, now: Time, db': Tables, g: Uuid, u: Uuid)
    requires GroupsKnown(db) && Step(db, c, now, db')
    requires c.PurgeTxs? || c.PurgeGroupTxs? || c.PurgeSettlements? || c.PurgeGroups?
    ensures UserGroupBalance(db'.groupTxs, db'.settlements, g, u) ==
            UserGroupBalance(db.groupTxs, db.settlements, g, u)
  {
    hide UserGroupBalance, SplitAmounts, Unlinked;
    match c
    case PurgeTxs => UnlinkedSameStakes(db, StaleTxs(db, now), db.settlements, g, u);
    case PurgeGroups =>
      DeadRowsOfDeadGroups(db, now);
      SameStakes(db.groupTxs, db'.groupTxs, db.settlements, db'.settlements, g, u);
    case _ => SameStakes(db.groupTxs, db'.groupTxs, db.settlements, db'.settlements, g, u);
  }

  lemma DeadRowsOfDeadGroups(db: Tables, now: Time)
    requires GroupsKnown(db)
    ensures forall id :: id in db.groupTxs && db.groupTxs[id].group in StaleGroups(db, now) ==>
              db.groupTxs[id].isDeleted
    ensures forall id :: id in db.settlements && db.settlements[id].group in StaleGroups(db, now) ==>
              db.settlements[id].isDeleted
  {
  }

  /** Every command moves every balance of every group by its gain, and by nothing when it is refused. */
  lemma BalancesMove(db: Tables, c: Command, now: Time, db': Tables, g: Uuid, u: Uuid)
    requires GroupsKnown(db) && Step(db, c, now, db')
    ensures UserGroupBalance(db'.groupTxs, db'.settlements, g, u) ==
            UserGroupBalance(db.groupTxs, db.settlements, g, u)
            + if Result(db, c, now) == Ok then Gain(db, c, g, u) else 0
  {
    hide UserGroupBalance, GroupsKnown, CreateGroupTxEffect, UpdateGroupTxEffect, CreateSettlementEffect,
      UpdateSettlementEffect, CreateGroupTxResult, UpdateGroupTxResult, CreateSettlementResult, UpdateSettlementResult;
    if Result(db, c, now) == Ok {
      match c
      case CreateGroupTx(caller, g', req) => CreateGroupTxMoves(db, caller, g', req, now, db', g, u);
      case UpdateGroupTx(caller, g', id, req) => UpdateGroupTxMoves(db, caller, g', id, req, now, db', g, u);
      case DeleteGroupTx(_, _, _) => DeleteGroupTxMoves(db, c, now, db', g, u);
      case CreateSettlement(_, _, _, _, _, _, _) => CreateSettlementMoves(db, c, now, db', g, u);
      case UpdateSettlement(_, _, _, _) => UpdateSettlementMoves(db, c, now, db', g, u);
      case DeleteSettlement(_, _) => DeleteSettlementMoves(db, c, now, db', g, u);
      case DeleteGroup(_, g') => DeleteGroupMoves(db, g', now, g, u);
      case DeleteTx(_, id) => UnlinkedSameStakes(db, {id}, db.settlements, g, u);
      case PurgeTxs => PurgeMoves(db, c, now, db', g, u);
      case PurgeGroupTxs => PurgeMoves(db, c, now, db', g, u);
      case PurgeSettlements => PurgeMoves(db, c, now, db', g, u);
      case PurgeGroups => PurgeMoves(db, c, now, db', g, u);
      case _ =>
    }
  }

  /** What the accepted ones of the first `n` commands give `u`. */
  ghost function Gains(
    states: seq<Tables>, commands: seq<Command>, times: seq<Time>, g: Uuid, u: Uuid, n: nat): Cents
    requires |states| > |commands| == |times| && n <= |commands|
  {
    if n == 0 then 0
    else
      var db, c := states[n - 1], commands[n - 1];
      Gains(states, commands, times, g, u, n - 1) + if Result(db, c, times[n - 1]) == Ok then Gain(db, c, g, u) else 0
  }

  /** In every run, careful or not, a balance is all that the accepted commands gave. */
  lemma {:induction false} BalanceIsAllGains(
    states: seq<Tables>, commands: seq<Command>, times: seq<Time>, g: Uuid, u: Uuid, n: nat)
    requires Run(states, commands, times) && n <= |commands|
    ensures UserGroupBalance(states[n].groupTxs, states[n].settlements, g, u) ==
            Gains(states, commands, times, g, u, n)
  {
    hide Step, Result, Gain, Referential, UserGroupBalance;
    if n == 0 {
      EmptyBalance(states[0], g, u);
    } else {
      BalanceIsAllGains(states, commands, times, g, u, n - 1);
      ReachableReferences(states, commands, times, n - 1);
      RunStep(states, commands, times, n);
      hide Run, GroupsKnown;
      assert GroupsKnown(states[n - 1]) by { GroupsAreKnown(states[n - 1]); }
      BalancesMove(states[n - 1], commands[n - 1], times[n - 1], states[n], g, u);
    }
  }

  lemma GroupsAreKnown(db: Tables)
    requires Referential(db)
    ensures GroupsKnown(db)
  {
  }

  lemma EmptyBalance(db: Tables, g: Uuid, u: Uuid)
    requires db.groupTxs == map[] && db.settlements == map[]
    ensures UserGroupBalance(db.groupTxs, db.settlements, g, u) == 0
  {
  }

  // ----- What an update of a shared transaction comes to -----

  /** Naming another payer, and no splits, moves the total from the old payer to the new one and moves
      nothing else of anybody. */
  lemma PayerMovesTheTotal(
    db: Tables, caller: Uuid, g: Uuid, id: Uuid, req: UpdateGroupTxRequest, now: Time, db': Tables, h: Uuid, u: Uuid)
    requires GroupsKnown(db) && req.splits == [] && req.paidBy.Some?
    requires Result(db, UpdateGroupTx(caller, g, id, req), now) == Ok
    requires Step(db, UpdateGroupTx(caller, g, id, req), now, db')
    ensures id in db.groupTxs
    ensures var old', new', total := db.groupTxs[id].paidBy, req.paidBy.value, db.groupTxs[id].total;
            UserGroupBalance(db'.groupTxs, db'.settlements, h, u) ==
            UserGroupBalance(db.groupTxs, db.settlements, h, u)
            + (if h == g && u == new' && new' != old' then total else 0)
            - (if h == g && u == old' && new' != old' then total else 0)
  {
    hide UserGroupBalance, GroupsKnown, Step, UpdateGroupTxEffect;
    BalancesMove(db, UpdateGroupTx(caller, g, id, req), now, db', h, u);
    NoTotalWithoutSplits(db, caller, g, id, req, now);
  }

  lemma NoTotalWithoutSplits(db: Tables, caller: Uuid, g: Uuid, id: Uuid, req: UpdateGroupTxRequest, now: Time)
    requires UpdateGroupTxResult(db, caller, g, id, req, now) == Ok
    ensures LiveTx(db.groupTxs, g, id)
    ensures req.splits == [] ==> req.total.None?
  {
    hide InputSum, OneCurrency, Refused, Rounded, IsMember, Users, Involved;
  }

  /** With splits, every balance is as if the transaction had been deleted and another one created with the
      payer, the total and the splits asked for. */
  lemma UpdateIsDeleteAndCreate(
    db: Tables, caller: Uuid, g: Uuid, id: Uuid, req: UpdateGroupTxRequest, now: Time, db': Tables,
    deleter: Uuid, t1: Time, db1: Tables, creator: Uuid, create: CreateGroupTxRequest, t2: Time, db2: Tables,
    h: Uuid, u: Uuid)
    requires GroupsKnown(db) && req.splits != []
    requires Result(db, UpdateGroupTx(caller, g, id, req), now) == Ok
    requires Step(db, UpdateGroupTx(caller, g, id, req), now, db')
    requires Result(db, DeleteGroupTx(deleter, g, id), t1) == Ok && Step(db, DeleteGroupTx(deleter, g, id), t1, db1)
    requires Result(db1, CreateGroupTx(creator, g, create), t2) == Ok
    requires Step(db1, CreateGroupTx(creator, g, create), t2, db2)
    requires id in db.groupTxs && create.id !in db1.groupTxs && create.splits == req.splits
    requires create.paidBy == if req.paidBy.Some? then req.paidBy.value else db.groupTxs[id].paidBy
    requires create.total == if req.total.Some? then req.total.value else db.groupTxs[id].total as real
    ensures UserGroupBalance(db'.groupTxs, db'.settlements, h, u) ==
            UserGroupBalance(db2.groupTxs, db2.settlements, h, u)
  {
    hide UserGroupBalance, GroupsKnown, Step, Result, AmountOf, Rounded, StakeIn;
    WholeCents(db.groupTxs[id].total);
    BalancesMove(db, UpdateGroupTx(caller, g, id, req), now, db', h, u);
    BalancesMove(db, DeleteGroupTx(deleter, g, id), t1, db1, h, u);
    GroupsStep(db, DeleteGroupTx(deleter, g, id), t1, db1);
    BalancesMove(db1, CreateGroupTx(creator, g, create), t2, db2, h, u);
    assert StakeIn(db1.groupTxs, h, u, create.id) == 0 by { FreshHasNoStake(db1.groupTxs, h, u, create.id); }
  }

  lemma FreshHasNoStake(gts: map<Uuid, GroupTx>, g: Uuid, u: Uuid, id: Uuid)
    requires id !in gts
    ensures StakeIn(gts, g, u, id) == 0
  {
  }

  /** Deleting a shared transaction leaves every balance as it is without its row. */
  lemma DeletedTxDoesNotCount(
    db: Tables, caller: Uuid, g: Uuid, id: Uuid, now: Time, db': Tables, h: Uuid, u: Uuid)
    requires Result(db, DeleteGroupTx(caller, g, id), now) == Ok && Step(db, DeleteGroupTx(caller, g, id), now, db')
    ensures UserGroupBalance(db'.groupTxs, db'.settlements, h, u) ==
            UserGroupBalance(db.groupTxs - {id}, db.settlements, h, u)
  {
    hide UserGroupBalance, IsMember, Involved, SplitAmounts;
    SameStakes(db'.groupTxs, db.groupTxs - {id}, db'.settlements, db.settlements, h, u);
  }

  /** Deleting a settlement leaves every balance as it is without its row. */
  lemma DeletedSettlementIsOutOfBalances(
    db: Tables, caller: Uuid, id: Uuid, now: Time, db': Tables, h: Uuid, u: Uuid)
    requires Result(db, DeleteSettlement(caller, id), now) == Ok && Step(db, DeleteSettlement(caller, id), now, db')
    ensures UserGroupBalance(db'.groupTxs, db'.settlements, h, u) ==
            UserGroupBalance(db.groupTxs, db.settlements - {id}, h, u)
  {
    hide UserGroupBalance;
    SameStakes(db'.groupTxs, db.groupTxs, db'.settlements, db.settlements - {id}, h, u);
  }
}
