/** Who may change what: for every command in every state, what a new or changed row says of the caller. */
module Permissions {
  import opened Wrappers
  import opened Ledger
  import opened Splits
  import opened Handlers
  import opened GroupLedger
  import opened SplitLinks
  import opened References
  import opened SettlementLaws
  import opened Patches

  /** All of `us` are in the group, which is live. */
  predicate AllIn(db: Tables, g: Uuid, us: set<Uuid>) {
    g in db.groups && !db.groups[g].isDeleted && us <= db.groups[g].members
  }

  /** Those of `us` that are users have this currency. */
  predicate Use(db: Tables, us: set<Uuid>, currency: string) {
    forall u :: u in us && u in db.currencies ==> db.currencies[u] == currency
  }

  ghost predicate SameCurrency(db: Tables, us: set<Uuid>) {
    exists currency :: Use(db, us, currency)
  }

  lemma SameCurrencyIff(db: Tables, us: set<Uuid>)
    ensures OneCurrency(db, us) <==> SameCurrency(db, us)
  {
    if OneCurrency(db, us) {
      if u :| u in us && u in db.currencies {
        assert Use(db, us, db.currencies[u]);
      } else {
        assert Use(db, us, "");
      }
    }
  }

  // ----- Settlements -----

  /** A new settlement is between two members of a live group, and recorded by one of them. */
  predicate MayAddSettlement(db: Tables, c: Command, now: Time, id: Uuid, s: Settlement) {
    && c.CreateSettlement? && c.id == id && !s.isDeleted && s.amount > 0 && s.updatedAt == now
    && s.group == c.g && s.from == c.from && s.to == c.to && s.amount == Rounded(c.amount)
    && s.from != s.to && (c.caller == s.from || c.caller == s.to)
    && AllIn(db, s.group, {s.from, s.to})
  }

  /** A settlement changes at the word of one of its parties while it is live, or goes with its group at the
      word of the group's creator. */
  predicate MayChangeSettlement(db: Tables, c: Command, now: Time, id: Uuid, s: Settlement, s': Settlement) {
    || (c.UpdateSettlement? && c.id == id && !s.isDeleted && !s'.isDeleted && s'.updatedAt == now
        && (c.caller == s.from || c.caller == s.to))
    || (c.DeleteSettlement? && c.id == id && !s.isDeleted && s'.isDeleted && (c.caller == s.from || c.caller == s.to)
        && s' == s.(isDeleted := true, updatedAt := now))
    || (c.DeleteGroup? && c.g == s.group && c.g in db.groups && c.caller == db.groups[c.g].createdBy
        && s' == s.(isDeleted := true, updatedAt := now))
  }

  /** The purge takes settlements a day after they, or their group, are deleted. */
  predicate MayPurge(db: Tables, c: Command, now: Time, own: bool, isDeleted: bool, updatedAt: Time, g: Uuid) {
    || (own && isDeleted && updatedAt + 24 * 60 * 60 < now)
    || (c.PurgeGroups? && g in db.groups && db.groups[g].isDeleted && db.groups[g].updatedAt + 24 * 60 * 60 < now)
  }

  /** Every settlement that is new, differs or is gone. */
  ghost predicate SettlementsStep(db: Tables, c: Command, now: Time, db': Tables) {
    && (forall id :: id in db'.settlements && id !in db.settlements ==>
          MayAddSettlement(db, c, now, id, db'.settlements[id]))
    && (forall id :: id in db'.settlements && id in db.settlements && db'.settlements[id] != db.settlements[id] ==>
          MayChangeSettlement(db, c, now, id, db.settlements[id], db'.settlements[id]))
    && (forall id :: id in db.settlements && id !in db'.settlements ==>
          var s := db.settlements[id];
          MayPurge(db, c, now, c.PurgeSettlements?, s.isDeleted, s.updatedAt, s.group))
  }

  lemma CreateSettlementAllowed(db: Tables, c: Command, now: Time, db': Tables)
    requires c.CreateSettlement? && Result(db, c, now) == Ok && Step(db, c, now, db')
    ensures SettlementsStep(db, c, now, db')
  {
    hide PairwiseDebt, PairBooked, Rounded, OneCurrency;
  }

  lemma UpdateSettlementAllowed(db: Tables, c: Command, now: Time, db': Tables)
    requires c.UpdateSettlement? && Result(db, c, now) == Ok && Step(db, c, now, db')
    ensures SettlementsStep(db, c, now, db')
  {
    hide Step, Result, SameCurrency, Rounded;
    SettlementUpdateAcceptedIff(db, c.caller, c.id, c.newAmount, c.newNotes, now);
    UpdatedSettlementFollows(db, c.caller, c.id, c.newAmount, c.newNotes, now, db');
  }

  lemma SettlementsStayOrGo(db: Tables, c: Command, now: Time, db': Tables)
    requires c.DeleteSettlement? || c.DeleteGroup? || c.PurgeSettlements? || c.PurgeGroups?
    requires Result(db, c, now) == Ok && Step(db, c, now, db')
    ensures SettlementsStep(db, c, now, db')
  {
    hide SoftDeletedTxs;
  }

  lemma SettlementsUntouched(db: Tables, c: Command, now: Time, db': Tables)
    requires db'.settlements == db.settlements
    ensures SettlementsStep(db, c, now, db')
  {
    hide MayAddSettlement, MayChangeSettlement, MayPurge;
  }

  lemma OthersLeaveSettlements(db: Tables, c: Command, now: Time, db': Tables)
    requires !c.CreateSettlement? && !c.UpdateSettlement? && !c.DeleteSettlement? && !c.DeleteGroup?
    requires !c.PurgeSettlements? && !c.PurgeGroups? && Result(db, c, now) == Ok && Step(db, c, now, db')
    ensures db'.settlements == db.settlements
  {
    hide CreateGroupTxResult, UpdateGroupTxResult, SplitsApplied, UserGroupBalance, Rounded, SyncedTxs, Patched,
      SoftDeletedTxs, UnlinkedSplits;
    if c.UpdateGroupTx? {
      UpdatedTxIsThere(db, c, now);
    }
  }

  /** Nobody but its parties records or changes a settlement. */
  lemma SettlementsAreTheirParties(db: Tables, c: Command, now: Time, db': Tables)
    requires Step(db, c, now, db')
    ensures SettlementsStep(db, c, now, db')
  {
    hide SettlementsStep, Result, Effect;
    if Result(db, c, now) != Ok {
      SettlementsUntouched(db, c, now, db');
    } else if c.CreateSettlement? {
      CreateSettlementAllowed(db, c, now, db');
    } else if c.UpdateSettlement? {
      UpdateSettlementAllowed(db, c, now, db');
    } else if c.DeleteSettlement? || c.DeleteGroup? || c.PurgeSettlements? || c.PurgeGroups? {
      SettlementsStayOrGo(db, c, now, db');
    } else {
      OthersLeaveSettlements(db, c, now, db');
      SettlementsUntouched(db, c, now, db');
    }
  }

  /** Which settlements are accepted: between two different members of a live group with one currency,
      recorded by one of them under a fresh id, of an amount that neither rounds to nothing nor exceeds the
      debt that is read by less than half a cent. */
  lemma SettlementAcceptedIff(
    db: Tables, caller: Uuid, id: Uuid, g: Uuid, from: Uuid, to: Uuid, amount: Amount, notes: Option<string>,
    now: Time)
    ensures Result(db, CreateSettlement(caller, id, g, from, to, amount, notes), now) == Ok <==>
            && AllIn(db, g, {from, to}) && from != to && (caller == from || caller == to)
            && SameCurrency(db, {from, to}) && amount >= 0.5 && id !in db.settlements
            && !(0.0 < amount - Max(0, Debt(db, g, from, to) - Rounded(amount)) as real < 0.5)
  {
    hide PairwiseDebt, Bookable, ComputeSettlementEffect, SameCurrency, OneCurrency;
    SameCurrencyIff(db, {from, to});
    assert amount > 0.0 ==> (Storable(amount) <==> amount >= 0.5);
    if IsMember(db, g, caller) && IsMember(db, g, from) && IsMember(db, g, to) && from != to
      && (caller == from || caller == to) && OneCurrency(db, {from, to}) && Storable(amount) && id !in db.settlements
    {
      CreateRefusedIff(db, caller, id, g, from, to, amount, notes, now);
    }
  }

  /** Which updates of one are: by a party while it is live, of the notes alone or to an amount on the same
      terms, against the debt without it. */
  lemma SettlementUpdateAcceptedIff(
    db: Tables, caller: Uuid, id: Uuid, amount: Option<Amount>, notes: Option<string>, now: Time)
    ensures Result(db, UpdateSettlement(caller, id, amount, notes), now) == Ok <==>
            && id in db.settlements && !db.settlements[id].isDeleted
            && var s := db.settlements[id];
               && (caller == s.from || caller == s.to) && (amount.Some? || notes.Some?)
               && (amount.Some? ==>
                     && amount.value >= 0.5 && SameCurrency(db, {s.from, s.to})
                     && !(0.0 < amount.value - Max(0, DebtWithout(db, id, s)) as real < 0.5))
  {
    hide PairwiseDebt, Bookable, ComputeSettlementEffect, SameCurrency, OneCurrency, RewriteSettlementResult, Rounded;
    if id in db.settlements && amount.Some? && amount.value > 0.0 {
      var s := db.settlements[id];
      SameCurrencyIff(db, {s.from, s.to});
      StorableIff(amount.value);
      AmountRewriteIff(db, id, amount.value, notes, now);
    } else if id in db.settlements && amount.None? {
      NotesRewriteIff(db, id, notes, now);
    }
  }

  lemma AmountRewriteIff(db: Tables, id: Uuid, amount: Amount, notes: Option<string>, now: Time)
    requires id in db.settlements
    ensures var s := db.settlements[id];
            RewriteSettlementResult(db, id, Some(amount), notes, now) == Ok <==>
            && Storable(amount) && OneCurrency(db, {s.from, s.to})
            && !(0.0 < amount - Max(0, DebtWithout(db, id, s)) as real < 0.5)
  {
    hide PairwiseDebt, Bookable, ComputeSettlementEffect, OneCurrency, Rounded, Dropped;
    if Storable(amount) && OneCurrency(db, {db.settlements[id].from, db.settlements[id].to}) {
      UpdateRefusedIff(db, id, amount, notes, now);
    }
  }

  lemma NotesRewriteIff(db: Tables, id: Uuid, notes: Option<string>, now: Time)
    requires id in db.settlements
    ensures RewriteSettlementResult(db, id, None, notes, now) == Ok
  {
  }

  /** A member who is no party is turned away, as is anybody outside the group. */
  lemma StrangersSettleNothing(
    db: Tables, caller: Uuid, id: Uuid, g: Uuid, from: Uuid, to: Uuid, amount: Amount, notes: Option<string>,
    now: Time)
    requires amount != 0.0
    ensures Result(db, CreateSettlement(caller, id, g, from, to, amount, notes), now) == Forbidden <==>
            || !AllIn(db, g, {caller})
            || (AllIn(db, g, {from, to}) && from != to && caller != from && caller != to)
  {
    hide PairwiseDebt, Bookable, ComputeSettlementEffect, OneCurrency, Rounded;
  }

  // ----- Shared transactions -----

  /** A new shared transaction is of a live group that holds its sender, its payer and everybody it is
      split among, all of one currency. */
  ghost predicate MayAddGroupTx(db: Tables, c: Command, now: Time, id: Uuid, gt: GroupTx) {
    && c.CreateGroupTx? && c.create.id == id && gt.group == c.g && gt.paidBy == c.create.paidBy && !gt.isDeleted
    && gt.updatedAt == VersionOf(c.create.updatedAt, now)
    && AllIn(db, gt.group, {c.caller, gt.paidBy} + gt.splits.Keys)
    && SameCurrency(db, {gt.paidBy} + gt.splits.Keys)
  }

  /** The time a request was sent with, and otherwise the time of the call. */
  function VersionOf(sent: Option<Time>, now: Time): Time {
    if sent.Some? then sent.value else now
  }

  /** Its payer, or one of those it is split among. */
  predicate Concerned(gt: GroupTx, u: Uuid) {
    u == gt.paidBy || u in gt.splits.Keys
  }

  /** It changes at the word of a member who sends it again, of somebody concerned while it is live, or of the
      group's creator who deletes the group; it never changes its group. Otherwise only the links of its
      splits are cleared, when the rows they lead to are deleted. */
  ghost predicate MayChangeGroupTx(db: Tables, c: Command, now: Time, id: Uuid, gt: GroupTx, gt': GroupTx) {
    && gt'.group == gt.group
    && match c
       case CreateGroupTx(caller, g, req) =>
         && req.id == id && g == gt.group && gt.updatedAt <= gt'.updatedAt == VersionOf(req.updatedAt, now)
         && !gt'.isDeleted
         && AllIn(db, g, {caller, gt'.paidBy} + gt'.splits.Keys)
         && SameCurrency(db, {gt'.paidBy} + gt'.splits.Keys)
       case UpdateGroupTx(caller, g, id', req) =>
         && id' == id && g == gt.group && !gt.isDeleted && !gt'.isDeleted
         && gt.updatedAt <= gt'.updatedAt == VersionOf(req.updatedAt, now)
         && Concerned(gt, caller)
         && (gt'.paidBy != gt.paidBy ==> AllIn(db, g, {gt'.paidBy}))
         && (gt'.splits != gt.splits ==> AllIn(db, g, gt'.splits.Keys))
         && (gt'.paidBy != gt.paidBy || gt'.splits != gt.splits ==>
               SameCurrency(db, {gt'.paidBy} + gt'.splits.Keys))
       case DeleteGroupTx(caller, g, id') =>
         && id' == id && g == gt.group && AllIn(db, g, {caller}) && Concerned(gt, caller)
         && gt' == gt.(isDeleted := true, updatedAt := now)
       case DeleteGroup(caller, g) =>
         && g == gt.group && g in db.groups && caller == db.groups[g].createdBy
         && gt' == gt.(isDeleted := true, updatedAt := now)
       case _ => gt' == gt.(splits := gt'.splits) && SameShares(gt.splits, gt'.splits)
  }

  predicate SameShares(splits: map<Uuid, Split>, splits': map<Uuid, Split>) {
    && splits'.Keys == splits.Keys
    && forall u :: u in splits ==>
         splits'[u].id == splits[u].id && splits'[u].amount == splits[u].amount
         && (splits'[u].txId == splits[u].txId || splits'[u].txId.None?)
  }

  /** Every shared transaction that is new, differs or is gone. */
  ghost predicate GroupTxsStep(db: Tables, c: Command, now: Time, db': Tables) {
    && (forall id :: id in db'.groupTxs && id !in db.groupTxs ==> MayAddGroupTx(db, c, now, id, db'.groupTxs[id]))
    && (forall id :: id in db'.groupTxs && id in db.groupTxs && db'.groupTxs[id] != db.groupTxs[id] ==>
          MayChangeGroupTx(db, c, now, id, db.groupTxs[id], db'.groupTxs[id]))
    && (forall id :: id in db.groupTxs && id !in db'.groupTxs ==>
          var gt := db.groupTxs[id];
          MayPurge(db, c, now, c.PurgeGroupTxs?, gt.isDeleted, gt.updatedAt, gt.group))
  }

  lemma CreateGroupTxAllowed(db: Tables, c: Command, now: Time, db': Tables)
    requires c.CreateGroupTx? && Result(db, c, now) == Ok && Step(db, c, now, db')
    ensures GroupTxsStep(db, c, now, db')
  {
    hide Served, InputSum, Refused, Rounded, OneCurrency, SameCurrency, AmountOf;
    SameCurrencyIff(db, Users(c.create.splits) + {c.create.paidBy});
    assert {c.create.paidBy} + Users(c.create.splits) == Users(c.create.splits) + {c.create.paidBy};
    hide Users;
  }

  lemma UpdateGroupTxAllowed(db: Tables, c: Command, now: Time, db': Tables)
    requires c.UpdateGroupTx? && Result(db, c, now) == Ok && Step(db, c, now, db')
    ensures GroupTxsStep(db, c, now, db')
  {
    hide UpdateGroupTxEffect, UpdateGroupTxResult, SameCurrency, OrderlySplits, Users, Rounded, DetailsFollow;
    SharedUpdateAcceptedIff(db, c.caller, c.g, c.id, c.update, now);
    UpdatedTxFollows(db, c.caller, c.g, c.id, c.update, now, db');
    UpdatedShares(db, c, now, db');
    hide Step;
  }

  lemma UpdatedShares(db: Tables, c: Command, now: Time, db': Tables)
    requires c.UpdateGroupTx? && UpdateGroupTxResult(db, c.caller, c.g, c.id, c.update, now) == Ok
    requires c.id in db.groupTxs && UpdateGroupTxEffect(db, c.id, c.update, now, db')
    ensures c.id in db'.groupTxs
    ensures c.update.splits != [] ==> db'.groupTxs[c.id].splits.Keys == Users(c.update.splits)
  {
    hide UpdateGroupTxResult, Served, Users, AmountOf, SyncedTxs, UpdatedRow;
  }

  lemma DeleteGroupTxAllowed(db: Tables, c: Command, now: Time, db': Tables)
    requires c.DeleteGroupTx? || c.DeleteGroup?
    requires Result(db, c, now) == Ok && Step(db, c, now, db')
    ensures GroupTxsStep(db, c, now, db')
  {
    hide SoftDeletedTxs, SameCurrency;
  }

  lemma UnlinkedShares(splits: map<Uuid, Split>, gone: set<Uuid>)
    ensures SameShares(splits, UnlinkedSplits(splits, gone))
  {
  }

  lemma UnlinkedAllowed(db: Tables, c: Command, now: Time, db': Tables, gone: set<Uuid>)
    requires db'.groupTxs == Unlinked(db.groupTxs, gone)
    requires c.DeleteTx? || c.UpdateSettlement? || c.PurgeTxs?
    ensures GroupTxsStep(db, c, now, db')
  {
    hide SameShares, UnlinkedSplits;
    forall id | id in db.groupTxs
      ensures SameShares(db.groupTxs[id].splits, db'.groupTxs[id].splits)
    {
      UnlinkedShares(db.groupTxs[id].splits, gone);
    }
  }

  lemma PurgeAllowed(db: Tables, c: Command, now: Time, db': Tables)
    requires c.PurgeGroupTxs? || c.PurgeGroups?
    requires Step(db, c, now, db')
    ensures GroupTxsStep(db, c, now, db')
  {
    hide SameShares;
  }

  lemma GroupTxsUntouched(db: Tables, c: Command, now: Time, db': Tables)
    requires db'.groupTxs == db.groupTxs
    ensures GroupTxsStep(db, c, now, db')
  {
    hide MayAddGroupTx, MayChangeGroupTx, MayPurge;
  }

  lemma UpdatedSettlementUnlinks(db: Tables, c: Command, now: Time, db': Tables)
    requires c.UpdateSettlement? && Result(db, c, now) == Ok && Step(db, c, now, db')
    ensures db'.groupTxs == db.groupTxs || db'.groupTxs == Unlinked(db.groupTxs, RowsOfSettlement(db.txs, c.id))
  {
    hide RewriteSettlementResult, PairwiseDebt, PairBooked, Rounded, UpdatedSettlement, UnlinkedSplits;
  }

  /** Nobody but members and those concerned records or changes a shared transaction. */
  lemma GroupTxsAreTheirGroups(db: Tables, c: Command, now: Time, db': Tables)
    requires Step(db, c, now, db')
    ensures GroupTxsStep(db, c, now, db')
  {
    hide GroupTxsStep, Unlinked, CreateGroupTxEffect, UpdateGroupTxEffect, CreateSettlementResult,
      CreateGroupTxResult, UpdateGroupTxResult, UpdateSettlementResult, UpdateSettlementEffect, PairBooked;
    if Result(db, c, now) != Ok {
      GroupTxsUntouched(db, c, now, db');
    } else {
      match c
      case CreateGroupTx(_, _, _) => CreateGroupTxAllowed(db, c, now, db');
      case UpdateGroupTx(_, _, _, _) => UpdateGroupTxAllowed(db, c, now, db');
      case DeleteGroupTx(_, _, _) => DeleteGroupTxAllowed(db, c, now, db');
      case DeleteGroup(_, _) => DeleteGroupTxAllowed(db, c, now, db');
      case DeleteTx(_, id) => UnlinkedAllowed(db, c, now, db', {id});
      case PurgeTxs => UnlinkedAllowed(db, c, now, db', StaleTxs(db, now));
      case PurgeGroupTxs => PurgeAllowed(db, c, now, db');
      case PurgeGroups => PurgeAllowed(db, c, now, db');
      case UpdateSettlement(_, id, _, _) =>
        UpdatedSettlementUnlinks(db, c, now, db');
        if db'.groupTxs == db.groupTxs {
          GroupTxsUntouched(db, c, now, db');
        } else {
          UnlinkedAllowed(db, c, now, db', RowsOfSettlement(db.txs, id));
        }
      case _ => GroupTxsUntouched(db, c, now, db');
    }
  }

  /** Splits that add up as they were sent, none of which rounds to nothing, and which name nobody twice
      who has no split yet. */
  predicate OrderlySplits(desired: seq<SplitInput>, total: Amount, splits: map<Uuid, Split>) {
    && desired != [] && InputSum(desired) == total
    && (forall s :: s in desired ==> s.amount >= 0.5)
    && (forall i, j :: 0 <= i < j < |desired| && desired[i].user == desired[j].user ==> desired[j].user in splits)
  }

  lemma OrderlyIff(desired: seq<SplitInput>, total: Amount, splits: map<Uuid, Split>)
    ensures OrderlySplits(desired, total, splits) <==>
            desired != [] && InputSum(desired) == total && !Refused(desired, splits)
            && forall s :: s in desired ==> s.amount > 0.0
  {
    hide InputSum;
    assert forall s :: s in desired && s.amount > 0.0 ==> (Storable(s.amount) <==> s.amount >= 0.5);
    assert AllStorable(desired) <==> forall s :: s in desired ==> Storable(s.amount);
  }

  /** Which new or repeated shared transactions are accepted. */
  lemma SharedCreateAcceptedIff(db: Tables, caller: Uuid, g: Uuid, req: CreateGroupTxRequest, now: Time)
    ensures Result(db, CreateGroupTx(caller, g, req), now) == Ok <==>
            && AllIn(db, g, {caller, req.paidBy} + Users(req.splits))
            && SameCurrency(db, {req.paidBy} + Users(req.splits))
            && req.total >= 0.5 && OrderlySplits(req.splits, req.total, OldSplits(db, req.id))
            && (req.id in db.groupTxs ==>
                  && db.groupTxs[req.id].group == g
                  && db.groupTxs[req.id].updatedAt <= if req.updatedAt.Some? then req.updatedAt.value else now)
  {
    SameCurrencyIff(db, Users(req.splits) + {req.paidBy});
    assert {req.paidBy} + Users(req.splits) == Users(req.splits) + {req.paidBy};
    OrderlyIff(req.splits, req.total, OldSplits(db, req.id));
    if req.total > 0.0 {
      StorableIff(req.total);
    }
    hide InputSum, Users, Refused, OrderlySplits, OneCurrency, SameCurrency, OldSplits, Rounded;
  }

  /** Which updates of one are. */
  lemma SharedUpdateAcceptedIff(db: Tables, caller: Uuid, g: Uuid, id: Uuid, req: UpdateGroupTxRequest, now: Time)
    ensures Result(db, UpdateGroupTx(caller, g, id, req), now) == Ok <==>
            && id in db.groupTxs && db.groupTxs[id].group == g && !db.groupTxs[id].isDeleted
            && var gt := db.groupTxs[id];
               var payer := if req.paidBy.Some? then req.paidBy.value else gt.paidBy;
               && Concerned(gt, caller) && (req.paidBy.Some? ==> AllIn(db, g, {payer}))
               && gt.updatedAt <= (if req.updatedAt.Some? then req.updatedAt.value else now)
               && if req.splits == [] then
                    && req.total.None? && (req.paidBy.Some? ==> SameCurrency(db, {payer} + gt.splits.Keys))
                    && (req.paidBy.Some? || req.patch.category.Some? || req.patch.date.Some?
                        || req.patch.description.Some? || req.patch.notes.Some?)
                  else
                    var total := if req.total.Some? then req.total.value else gt.total as real;
                    && (req.total.Some? ==> total >= 0.5) && OrderlySplits(req.splits, total, gt.splits)
                    && AllIn(db, g, Users(req.splits)) && SameCurrency(db, {payer} + Users(req.splits))
  {
    hide InputSum, OneCurrency, SameCurrency, Rounded;
    if LiveTx(db.groupTxs, g, id) {
      var gt := db.groupTxs[id];
      var payer := if req.paidBy.Some? then req.paidBy.value else gt.paidBy;
      SameCurrencyIff(db, Users(req.splits) + {payer});
      SameCurrencyIff(db, gt.splits.Keys + {payer});
      assert {payer} + Users(req.splits) == Users(req.splits) + {payer};
      assert {payer} + gt.splits.Keys == gt.splits.Keys + {payer};
      OrderlyIff(req.splits, if req.total.Some? then req.total.value else gt.total as real, gt.splits);
      assert req.splits != [] ==> req.splits[0].user in Users(req.splits);
      NothingRefused(gt.splits);
      if req.total.Some? && req.total.value > 0.0 {
        StorableIff(req.total.value);
      }
      hide Users, Refused, OrderlySplits;
    }
  }

  lemma StorableIff(a: Amount)
    requires a > 0.0
    ensures Storable(a) <==> a >= 0.5
  {
  }

  lemma NothingRefused(splits: map<Uuid, Split>)
    ensures !Refused([], splits)
  {
  }

  // ----- Groups and their members -----

  /** How a group may change: a member adds somebody else, a user; a member removes another one who is not the
      creator and owes and is owed nothing; a member who is not the creator and owes and is owed nothing
      leaves; the creator deletes it. */
  ghost predicate MayChangeGroup(db: Tables, c: Command, now: Time, g: Uuid, group: Group, group': Group) {
    && !group.isDeleted
    && match c
       case AddMember(caller, g', u) =>
         && g' == g && caller in group.members && u !in group.members && u in db.currencies
         && group' == group.(members := group.members + {u})
       case RemoveMember(caller, g', u) =>
         && g' == g && caller in group.members && u in group.members && u != caller && u != group.createdBy
         && UserGroupBalance(db.groupTxs, db.settlements, g, u) == 0
         && group' == group.(members := group.members - {u})
       case LeaveGroup(caller, g') =>
         && g' == g && caller in group.members && caller != group.createdBy
         && UserGroupBalance(db.groupTxs, db.settlements, g, caller) == 0
         && group' == group.(members := group.members - {caller})
       case DeleteGroup(caller, g') =>
         g' == g && caller == group.createdBy && group' == group.(isDeleted := true, updatedAt := now)
       case _ => false
  }

  ghost predicate GroupsStep(db: Tables, c: Command, now: Time, db': Tables) {
    && (forall g :: g in db'.groups && g !in db.groups ==>
          c.CreateGroup? && c.g == g && db'.groups[g] == Group(c.caller, {c.caller}, false, now))
    && (forall g :: g in db'.groups && g in db.groups && db'.groups[g] != db.groups[g] ==>
          MayChangeGroup(db, c, now, g, db.groups[g], db'.groups[g]))
    && (forall g :: g in db.groups && g !in db'.groups ==>
          c.PurgeGroups? && db.groups[g].isDeleted && db.groups[g].updatedAt + 24 * 60 * 60 < now)
  }

  lemma MembersAllowed(db: Tables, c: Command, now: Time, db': Tables)
    requires c.CreateGroup? || c.AddMember? || c.RemoveMember? || c.LeaveGroup? || c.DeleteGroup? || c.PurgeGroups?
    requires Result(db, c, now) == Ok && Step(db, c, now, db')
    ensures GroupsStep(db, c, now, db')
  {
    hide UserGroupBalance, SoftDeletedTxs, WithoutGroupTxs, WithoutSettlements;
    if c.PurgeGroups? {
      assert db'.groups == db.groups - StaleGroups(db, now);
    }
  }

  lemma GroupsUntouched(db: Tables, c: Command, now: Time, db': Tables)
    requires Step(db, c, now, db')
    requires !c.CreateGroup? && !c.AddMember? && !c.RemoveMember? && !c.LeaveGroup? && !c.DeleteGroup?
    requires !c.PurgeGroups?
    ensures db'.groups == db.groups
  {
    hide CreateGroupTxResult, UpdateGroupTxResult, CreateSettlementResult, UpdateSettlementResult, SplitsApplied,
      PairBooked, PairwiseDebt, Rounded, SyncedTxs, SoftDeletedTxs, UpdatedSettlement, Patched;
    if c.UpdateGroupTx? && Result(db, c, now) == Ok {
      UpdatedTxIsThere(db, c, now);
    }
  }

  /** Every change of a group or of its members is one of these. */
  lemma GroupsAreTheirMembers(db: Tables, c: Command, now: Time, db': Tables)
    requires Step(db, c, now, db')
    ensures GroupsStep(db, c, now, db')
  {
    hide Result, Effect, MayChangeGroup;
    if Result(db, c, now) == Ok {
      if c.CreateGroup? || c.AddMember? || c.RemoveMember? || c.LeaveGroup? || c.DeleteGroup? || c.PurgeGroups? {
        MembersAllowed(db, c, now, db');
      } else {
        GroupsUntouched(db, c, now, db');
      }
    }
  }

  /** And each of them is allowed whenever that holds. */
  lemma MembershipAcceptedIff(db: Tables, caller: Uuid, g: Uuid, u: Uuid, now: Time)
    ensures Result(db, AddMember(caller, g, u), now) == Ok <==>
            AllIn(db, g, {caller}) && u in db.currencies && u !in db.groups[g].members
    ensures Result(db, RemoveMember(caller, g, u), now) == Ok <==>
            && AllIn(db, g, {caller, u}) && u != caller && u != db.groups[g].createdBy
            && UserGroupBalance(db.groupTxs, db.settlements, g, u) == 0
    ensures Result(db, LeaveGroup(u, g), now) == Ok <==>
            && AllIn(db, g, {u}) && u != db.groups[g].createdBy
            && UserGroupBalance(db.groupTxs, db.settlements, g, u) == 0
    ensures Result(db, DeleteGroup(caller, g), now) == Ok <==>
            g in db.groups && !db.groups[g].isDeleted && caller == db.groups[g].createdBy
  {
    hide UserGroupBalance;
  }

  lemma DeletionAcceptedIff(db: Tables, caller: Uuid, g: Uuid, id: Uuid, now: Time)
    ensures Result(db, DeleteGroupTx(caller, g, id), now) == Ok <==>
            && AllIn(db, g, {caller}) && id in db.groupTxs && db.groupTxs[id].group == g
            && Concerned(db.groupTxs[id], caller)
    ensures Result(db, DeleteSettlement(caller, id), now) == Ok <==>
            && id in db.settlements && !db.settlements[id].isDeleted
            && (caller == db.settlements[id].from || caller == db.settlements[id].to)
  {
  }

  /** The creator is a member for good. */
  ghost predicate CreatorsAreMembers(db: Tables) {
    forall g :: g in db.groups ==> db.groups[g].createdBy in db.groups[g].members
  }

  lemma {:induction false} ReachableCreators(states: seq<Tables>, commands: seq<Command>, times: seq<Time>, i: nat)
    requires Run(states, commands, times) && i < |states|
    ensures CreatorsAreMembers(states[i])
  {
    hide Step;
    if i > 0 {
      ReachableCreators(states, commands, times, i - 1);
      RunStep(states, commands, times, i);
      hide Run, UserGroupBalance;
      GroupsAreTheirMembers(states[i - 1], commands[i - 1], times[i - 1], states[i]);
    }
  }
}
