/** What every run keeps of the references between the tables, whatever requests it takes: nothing points
    at a missing row, and a deleted group has nothing live in it. */
module References {
  import opened Wrappers
  import opened Ledger
  import opened Splits
  import opened Handlers
  import opened GroupLedger
  import opened SplitLinks
  import opened RowSteps

  /** Shared transactions and settlements are of known groups, and deleted when their group is. */
  ghost predicate GroupsKnown(db: Tables) {
    && (forall id :: id in db.groupTxs ==> InGroup(db.groups, db.groupTxs[id].group, db.groupTxs[id].isDeleted))
    && (forall id :: id in db.settlements ==>
          InGroup(db.groups, db.settlements[id].group, db.settlements[id].isDeleted))
  }

  predicate InGroup(groups: map<Uuid, Group>, g: Uuid, isDeleted: bool) {
    g in groups && (groups[g].isDeleted ==> isDeleted)
  }

  /** Personal rows are of known shared transactions and settlements. */
  ghost predicate RowsKnown(db: Tables) {
    forall p :: p in db.txs ==> RowKnown(db, db.txs[p])
  }

  predicate RowKnown(db: Tables, tx: Tx) {
    && (tx.groupTx.Some? ==> tx.groupTx.value in db.groupTxs)
    && (tx.settlement.Some? ==> tx.settlement.value in db.settlements)
  }

  ghost predicate Referential(db: Tables) {
    GroupsKnown(db) && RowsKnown(db) && Links(db)
  }

  // ----- Groups -----

  lemma SharedGroupsStep(db: Tables, c: Command, now: Time, db': Tables)
    requires GroupsKnown(db) && Result(db, c, now) == Ok && Step(db, c, now, db')
    requires c.CreateGroupTx? || c.UpdateGroupTx?
    ensures GroupsKnown(db')
  {
    hide SplitsApplied, InputSum, OneCurrency, Refused, Rounded, Users, Involved, SyncedTxs, Patched;
  }

  lemma SettlementGroupsStep(db: Tables, c: Command, now: Time, db': Tables)
    requires GroupsKnown(db) && Result(db, c, now) == Ok && Step(db, c, now, db')
    requires c.CreateSettlement? || c.UpdateSettlement? || c.DeleteSettlement?
    ensures GroupsKnown(db')
  {
    hide PairwiseDebt, PairBooked, OneCurrency, Rounded, RewriteSettlementResult, UnlinkedSplits;
  }

  lemma MemberGroupsStep(db: Tables, c: Command, now: Time, db': Tables)
    requires GroupsKnown(db) && Result(db, c, now) == Ok && Step(db, c, now, db')
    requires c.CreateGroup? || c.AddMember? || c.RemoveMember? || c.LeaveGroup? || c.DeleteGroup? || c.DeleteGroupTx?
    ensures GroupsKnown(db')
  {
    hide UserGroupBalance, SoftDeletedTxs, Involved;
  }

  lemma PurgeGroupsStep(db: Tables, c: Command, now: Time, db': Tables)
    requires GroupsKnown(db) && Step(db, c, now, db')
    requires c.PurgeTxs? || c.PurgeGroupTxs? || c.PurgeSettlements? || c.PurgeGroups?
    ensures GroupsKnown(db')
  {
    hide StaleTxs, StaleGroupTxs, StaleSettlements, StaleGroups, UnlinkedSplits;
  }

  lemma GroupsStep(db: Tables, c: Command, now: Time, db': Tables)
    requires GroupsKnown(db) && Step(db, c, now, db')
    ensures GroupsKnown(db')
  {
    hide GroupsKnown, CreateGroupTxEffect, UpdateGroupTxEffect, CreateSettlementEffect, UpdateSettlementEffect,
      CreateGroupTxResult, UpdateGroupTxResult, CreateSettlementResult, UpdateSettlementResult;
    if Result(db, c, now) == Ok {
      match c
      case CreateGroupTx(_, _, _) => SharedGroupsStep(db, c, now, db');
      case UpdateGroupTx(_, _, _, _) => SharedGroupsStep(db, c, now, db');
      case CreateSettlement(_, _, _, _, _, _, _) => SettlementGroupsStep(db, c, now, db');
      case UpdateSettlement(_, _, _, _) => SettlementGroupsStep(db, c, now, db');
      case DeleteSettlement(_, _) => SettlementGroupsStep(db, c, now, db');
      case PurgeTxs => PurgeGroupsStep(db, c, now, db');
      case PurgeGroupTxs => PurgeGroupsStep(db, c, now, db');
      case PurgeSettlements => PurgeGroupsStep(db, c, now, db');
      case PurgeGroups => PurgeGroupsStep(db, c, now, db');
      case UpsertTx(_, _) => SameGroups(db, db');
      case UpdateTx(_, _, _) => SameGroups(db, db');
      case DeleteTx(_, _) => SameGroups(db, db');
      case SetUser(_, _) => SameGroups(db, db');
      case _ => MemberGroupsStep(db, c, now, db');
    }
  }

  lemma SameGroups(db: Tables, db': Tables)
    requires GroupsKnown(db) && db'.groups == db.groups && db'.settlements == db.settlements
    requires db'.groupTxs == db.groupTxs || exists gone :: db'.groupTxs == Unlinked(db.groupTxs, gone)
    ensures GroupsKnown(db')
  {
  }

  // ----- Rows -----

  /** The tables keep what a row may point at, unless it is purged. */
  lemma TargetsStay(db: Tables, c: Command, now: Time, db': Tables)
    requires Step(db, c, now, db')
    ensures db.groupTxs.Keys <= db'.groupTxs.Keys || c.PurgeGroupTxs? || c.PurgeGroups?
    ensures db.settlements.Keys <= db'.settlements.Keys || c.PurgeSettlements? || c.PurgeGroups?
    ensures Result(db, c, now) == Ok && c.CreateGroupTx? ==> c.create.id in db'.groupTxs
    ensures Result(db, c, now) == Ok && c.CreateSettlement? ==> c.id in db'.settlements
  {
    hide CreateGroupTxResult, UpdateGroupTxResult, CreateSettlementResult, UpdateSettlementResult, SplitsApplied,
      PairBooked, PairwiseDebt, UserGroupBalance, Rounded, SyncedTxs, SoftDeletedTxs, UpdatedSettlement, Patched;
  }

  lemma UpdatedTxIsThere(db: Tables, c: Command, now: Time)
    requires c.UpdateGroupTx? && Result(db, c, now) == Ok
    ensures c.id in db.groupTxs
  {
    AcceptedUpdate(db, c.caller, c.g, c.id, c.update, now);
  }

  lemma PurgeRowsKnown(db: Tables, c: Command, now: Time, db': Tables)
    requires RowsKnown(db) && Step(db, c, now, db')
    requires c.PurgeTxs? || c.PurgeGroupTxs? || c.PurgeSettlements? || c.PurgeGroups?
    ensures RowsKnown(db')
  {
    hide StaleTxs, StaleGroupTxs, StaleSettlements, StaleGroups, UnlinkedSplits;
  }

  lemma OtherRowsKnown(db: Tables, c: Command, now: Time, db': Tables)
    requires RowsKnown(db) && Links(db) && Result(db, c, now) == Ok && Step(db, c, now, db')
    requires !c.PurgeTxs? && !c.PurgeGroupTxs? && !c.PurgeSettlements? && !c.PurgeGroups?
    ensures RowsKnown(db')
  {
    hide Step, Result, Links, MayTouch, Rewrites;
    RowsStepIsAll(db, c, now, db');
    TargetsStay(db, c, now, db');
    if c.UpdateGroupTx? {
      UpdatedTxIsThere(db, c, now);
    }
    forall p | p in db'.txs
      ensures RowKnown(db', db'.txs[p])
    {
      assert p in db.txs ==> RowKnown(db, db.txs[p]);
    }
  }

  /** Every command keeps the references. */
  lemma ReferencesStep(db: Tables, c: Command, now: Time, db': Tables)
    requires Referential(db) && Step(db, c, now, db')
    ensures Referential(db')
  {
    hide GroupsKnown, RowsKnown, Links, Result, Effect;
    GroupsStep(db, c, now, db');
    StepLinks(db, c, now, db');
    if Result(db, c, now) != Ok {
    } else if c.PurgeTxs? || c.PurgeGroupTxs? || c.PurgeSettlements? || c.PurgeGroups? {
      PurgeRowsKnown(db, c, now, db');
    } else {
      OtherRowsKnown(db, c, now, db');
    }
  }

  /** In every state of every run, careful or not. */
  lemma {:induction false} ReachableReferences(states: seq<Tables>, commands: seq<Command>, times: seq<Time>, i: nat)
    requires Run(states, commands, times) && i < |states|
    ensures Referential(states[i])
  {
    hide Step, Referential;
    if i > 0 {
      ReachableReferences(states, commands, times, i - 1);
      RunStep(states, commands, times, i);
      hide Run;
      ReferencesStep(states[i - 1], commands[i - 1], times[i - 1], states[i]);
    } else {
      NothingReferred(states[0]);
    }
  }

  lemma NothingReferred(db: Tables)
    requires db.groupTxs == map[] && db.txs == map[] && db.settlements == map[]
    ensures Referential(db)
  {
  }

  /** What a deleted group leaves behind is deleted, and no row of it can be settled, shared, or changed. */
  lemma DeletedGroupIsClosed(db: Tables, g: Uuid, c: Command, now: Time)
    requires Referential(db) && g in db.groups && db.groups[g].isDeleted
    requires || (c.CreateGroupTx? && c.g == g) || (c.UpdateGroupTx? && c.g == g) || (c.DeleteGroupTx? && c.g == g)
             || (c.CreateSettlement? && c.g == g) || (c.AddMember? && c.g == g)
             || (c.RemoveMember? && c.g == g) || (c.LeaveGroup? && c.g == g) || (c.DeleteGroup? && c.g == g)
             || (c.UpdateSettlement? && c.id in db.settlements && db.settlements[c.id].group == g)
             || (c.DeleteSettlement? && c.id in db.settlements && db.settlements[c.id].group == g)
    ensures Result(db, c, now) != Ok
  {
    hide InputSum, OneCurrency, Refused, Rounded, Users, PairwiseDebt, UserGroupBalance, Links, RowsKnown;
  }
}
