/** What settlements do to debts, and which personal rows they book. */
module SettlementLaws {
  import opened Wrappers
  import opened Sums
  import opened Ledger
  import opened Handlers
  import opened GroupLedger

  /** The debt met is cleared and the rest is excess; nothing is lost and nothing is negative. */
  lemma EffectSplitsTheAmount(debt: Amount, amount: Amount)
    requires amount > 0.0
    ensures var e := ComputeSettlementEffect(debt, amount);
            && e.debtCleared + e.excess == amount && e.debtCleared >= 0.0 && e.excess >= 0.0
            && e.debtCleared == (if debt <= 0.0 then 0.0 else if debt < amount then debt else amount)
  {
  }

  // ----- Settlements and debts -----

  ghost function Debt(db: Tables, g: Uuid, from: Uuid, to: Uuid): Cents {
    PairwiseDebt(db.groupTxs, db.settlements, g, from, to, None)
  }

  /** One settlement row's part of the transfers from `a` to `b`. */
  lemma OneRowOfTransfers(sts: map<Uuid, Settlement>, g: Uuid, a: Uuid, b: Uuid, sid: Uuid)
    requires sid in sts
    ensures Transferred(sts, g, a, b, None) ==
            Transferred(sts, g, a, b, Some(sid)) + TransferTerm(sts, g, a, b, None)(sid)
  {
    SumTake(sts.Keys, TransferTerm(sts, g, a, b, None), sid);
    SumTake(sts.Keys, TransferTerm(sts, g, a, b, Some(sid)), sid);
    SumAgree(sts.Keys - {sid}, TransferTerm(sts, g, a, b, None), TransferTerm(sts, g, a, b, Some(sid)));
  }

  /** What is excluded may as well be something else, or not be there. */
  lemma ExcludedRowIsIrrelevant(
    sts: map<Uuid, Settlement>, sts': map<Uuid, Settlement>, g: Uuid, a: Uuid, b: Uuid, sid: Uuid)
    requires sts'.Keys == sts.Keys + {sid}
    requires forall id :: id in sts && id != sid ==> sts'[id] == sts[id]
    ensures Transferred(sts', g, a, b, Some(sid)) == Transferred(sts, g, a, b, Some(sid))
  {
    var f, f' := TransferTerm(sts, g, a, b, Some(sid)), TransferTerm(sts', g, a, b, Some(sid));
    SumAgree(sts.Keys, f, f');
    SumWiden(sts.Keys, sts'.Keys, f');
  }

  lemma AbsentRowNeedsNoExclusion(sts: map<Uuid, Settlement>, g: Uuid, a: Uuid, b: Uuid, sid: Uuid)
    requires sid !in sts
    ensures Transferred(sts, g, a, b, Some(sid)) == Transferred(sts, g, a, b, None)
  {
    SumAgree(sts.Keys, TransferTerm(sts, g, a, b, Some(sid)), TransferTerm(sts, g, a, b, None));
  }

  ghost predicate Between(s: Settlement, a: Uuid, b: Uuid) {
    (s.from == a && s.to == b) || (s.from == b && s.to == a)
  }

  lemma TransfersAfter(sts: map<Uuid, Settlement>, sid: Uuid, s: Settlement, g: Uuid, a: Uuid, b: Uuid)
    requires sid !in sts && !s.isDeleted
    ensures Transferred(sts[sid := s], g, a, b, None) ==
            Transferred(sts, g, a, b, None) + if g == s.group && a == s.from && b == s.to then s.amount else 0
  {
    var sts' := sts[sid := s];
    OneRowOfTransfers(sts', g, a, b, sid);
    ExcludedRowIsIrrelevant(sts, sts', g, a, b, sid);
    AbsentRowNeedsNoExclusion(sts, g, a, b, sid);
  }

  /** A new settlement lowers the payer's debt to the recipient by its amount. */
  lemma SettlementLowersDebt(gts: map<Uuid, GroupTx>, sts: map<Uuid, Settlement>, sid: Uuid, s: Settlement)
    requires sid !in sts && !s.isDeleted && s.from != s.to
    ensures PairwiseDebt(gts, sts[sid := s], s.group, s.from, s.to, None) ==
            PairwiseDebt(gts, sts, s.group, s.from, s.to, None) - s.amount
  {
    TransfersAfter(sts, sid, s, s.group, s.from, s.to);
    TransfersAfter(sts, sid, s, s.group, s.to, s.from);
    hide Transferred, Sum;
  }

  /** It changes no debt between other people, and none in another group. */
  lemma SettlementChangesNoOtherDebt(
    gts: map<Uuid, GroupTx>, sts: map<Uuid, Settlement>, sid: Uuid, s: Settlement, g: Uuid, a: Uuid, b: Uuid)
    requires sid !in sts && !s.isDeleted
    requires g != s.group || !Between(s, a, b)
    ensures PairwiseDebt(gts, sts[sid := s], g, a, b, None) == PairwiseDebt(gts, sts, g, a, b, None)
  {
    TransfersAfter(sts, sid, s, g, a, b);
    TransfersAfter(sts, sid, s, g, b, a);
    hide Transferred, Sum;
  }

  /** Deleting a settlement leaves every debt as if it had never been made. */
  lemma DeletedSettlementDoesNotCount(db: Tables, sid: Uuid, now: Time, g: Uuid, a: Uuid, b: Uuid)
    requires sid in db.settlements
    ensures Debt(DeleteSettlementEffect(db, sid, now), g, a, b) ==
            PairwiseDebt(db.groupTxs, db.settlements, g, a, b, Some(sid))
    ensures forall p :: p in DeleteSettlementEffect(db, sid, now).txs ==>
              DeleteSettlementEffect(db, sid, now).txs[p].settlement == Some(sid) ==>
              DeleteSettlementEffect(db, sid, now).txs[p].isDeleted
  {
    var sts' := DeleteSettlementEffect(db, sid, now).settlements;
    forall x, y
      ensures Transferred(sts', g, x, y, None) == Transferred(db.settlements, g, x, y, Some(sid))
    {
      OneRowOfTransfers(sts', g, x, y, sid);
      ExcludedRowIsIrrelevant(db.settlements, sts', g, x, y, sid);
    }
  }

  /** The purge of rows and of shared transactions passes a live row of its own by. */
  lemma LiveRowStays(db: Tables, t1: Time, db1: Tables, t2: Time, db2: Tables, p: Uuid)
    requires p in db.txs && !db.txs[p].isDeleted && db.txs[p].groupTx.None?
    requires Step(db, PurgeTxs, t1, db1) && Step(db1, PurgeGroupTxs, t2, db2)
    ensures p in db2.txs && db2.txs[p] == db.txs[p] && db2.settlements == db.settlements
  {
    assert db1 == HardDeleted(db, StaleTxs(db, t1));
    assert db2 == WithoutGroupTxs(db1, StaleGroupTxs(db1, t2));
    hide Step;
  }

  /** The purge of its settlement and of groups leaves it live, without a settlement. */
  lemma LiveRowIsCutLoose(db: Tables, sid: Uuid, t3: Time, db3: Tables, t4: Time, db4: Tables, p: Uuid)
    requires p in db.txs && db.txs[p].groupTx.None? && db.txs[p].settlement == Some(sid)
    requires sid in StaleSettlements(db, t3)
    requires Step(db, PurgeSettlements, t3, db3) && Step(db3, PurgeGroups, t4, db4)
    ensures sid !in db4.settlements && p in db4.txs && db4.txs[p] == db.txs[p].(settlement := None)
  {
    assert db3 == WithoutSettlements(db, StaleSettlements(db, t3));
    assert db4 == WithoutGroups(db3, StaleGroups(db3, t4));
    hide Step, StaleSettlements, StaleGroups;
  }

  /** Deleting a group is different: the rows its settlements booked stay live, and the purge that
      removes the settlements cuts them loose. */
  lemma DeletedGroupLeavesBookedRows(
    db: Tables, g: Uuid, now: Time, sid: Uuid, p: Uuid, times: seq<Time>,
    db1: Tables, db2: Tables, db3: Tables, db4: Tables)
    requires g in db.groups && sid in db.settlements && db.settlements[sid].group == g
    requires p in db.txs && db.txs[p].settlement == Some(sid) && db.txs[p].groupTx.None? && !db.txs[p].isDeleted
    requires |times| == 4 && now < times[2] - RETENTION
    requires Step(DeleteGroupEffect(db, g, now), PurgeTxs, times[0], db1) && Step(db1, PurgeGroupTxs, times[1], db2)
    requires Step(db2, PurgeSettlements, times[2], db3) && Step(db3, PurgeGroups, times[3], db4)
    ensures sid !in db4.settlements && p in db4.txs && db4.txs[p] == db.txs[p].(settlement := None)
  {
    hide Step;
    var db0 := DeleteGroupEffect(db, g, now);
    assert db0.txs[p] == db.txs[p] && sid in StaleSettlements(db0, times[2]);
    LiveRowStays(db0, times[0], db1, times[1], db2, p);
    LiveRowIsCutLoose(db2, sid, times[2], db3, times[3], db4, p);
  }

  // ----- What creating a settlement books -----

  /** Creating a settlement inserts its row before it reads the debt, so the debt it reads is
      already lower by the amount. It books the excess over the debt before the settlement if and
      only if there was no debt, or at least twice the amount of it. */
  lemma CreateBooksExcessIff(db: Tables, sid: Uuid, s: Settlement, now: Time, db': Tables)
    requires CreateSettlementEffect(db, sid, s, now, db')
    requires !s.isDeleted && s.from != s.to && s.amount > 0
    ensures var debt := Debt(db, s.group, s.from, s.to);
            && PairBooked(db.txs, sid, s, Excess(debt - s.amount, s.amount), now, db'.txs)
            && (Excess(debt - s.amount, s.amount) == Excess(debt, s.amount) <==> debt <= 0 || 2 * s.amount <= debt)
  {
    SettlementLowersDebt(db.groupTxs, db.settlements, sid, s);
  }

  /** A settlement that is otherwise in order is refused if and only if its unrounded amount exceeds the
      debt it reads by less than half a cent, which rounds to nothing. */
  lemma CreateRefusedIff(
    db: Tables, caller: Uuid, sid: Uuid, g: Uuid, from: Uuid, to: Uuid, amount: Amount, notes: Option<string>,
    now: Time)
    requires IsMember(db, g, caller) && IsMember(db, g, from) && IsMember(db, g, to) && from != to
    requires caller in {from, to} && OneCurrency(db, {from, to}) && Storable(amount) && sid !in db.settlements
    ensures CreateSettlementResult(db, caller, sid, g, from, to, amount, notes, now) ==
            if 0.0 < amount - Max(0, Debt(db, g, from, to) - Rounded(amount)) as real < 0.5 then ServerError else Ok
  {
    var s := Settlement(g, from, to, Rounded(amount), notes, false, now);
    SettlementLowersDebt(db.groupTxs, db.settlements, sid, s);
    hide PairwiseDebt, IsMember, OneCurrency, Bookable, ComputeSettlementEffect;
    ExcessRounds(DebtRead(db, sid, s), amount);
  }

  // ----- Chains of amount updates -----

  /** One income row for the recipient and one expense row for the payer, or nothing. */
  ghost predicate BooksExactly(txs: map<Uuid, Tx>, sid: Uuid, s: Settlement, excess: Cents) {
    var rows := RowsOfSettlement(txs, sid);
    if excess == 0 then rows == {}
    else exists p, q :: p != q && rows == {p, q}
           && txs[p].user == s.to && txs[p].kind == Income && txs[p].amount == excess && !txs[p].isDeleted
           && txs[q].user == s.from && txs[q].kind == Expense && txs[q].amount == excess && !txs[q].isDeleted
  }

  lemma BookedAfterDrop(txs: map<Uuid, Tx>, sid: Uuid, s: Settlement, excess: Cents, now: Time, txs': map<Uuid, Tx>)
    requires excess >= 0
    requires PairBooked(txs - RowsOfSettlement(txs, sid), sid, s, excess, now, txs')
    ensures BooksExactly(txs', sid, s, excess)
  {
    var kept := txs - RowsOfSettlement(txs, sid);
    if excess > 0 {
      var p, q :| p !in kept && q !in kept && p != q &&
        txs' == kept[p := SettlementRow(s.to, Income, excess, sid, s.notes, now)]
                    [q := SettlementRow(s.from, Expense, excess, sid, s.notes, now)];
      assert RowsOfSettlement(txs', sid) == {p, q};
    }
  }

  lemma UnlinkedShares(gts: map<Uuid, GroupTx>, gone: set<Uuid>, g: Uuid, a: Uuid, b: Uuid)
    ensures Sum(Unlinked(gts, gone).Keys, ShareTerm(Unlinked(gts, gone), g, a, b)) ==
        Sum(gts.Keys, ShareTerm(gts, g, a, b))
  {
    var gts' := Unlinked(gts, gone);
    assert gts'.Keys == gts.Keys;
    forall id | id in gts
      ensures ShareTerm(gts', g, a, b)(id) == ShareTerm(gts, g, a, b)(id)
    {
      assert SplitAmounts(gts'[id].splits)(a) == SplitAmounts(gts[id].splits)(a);
    }
    SumAgree(gts.Keys, ShareTerm(gts', g, a, b), ShareTerm(gts, g, a, b));
  }

  /** Dropping the linked rows and changing the amount leave the debt without the settlement. */
  lemma DebtAfterDrop(
    db: Tables, sid: Uuid, amount: Option<Amount>, notes: Option<string>, now: Time)
    requires sid in db.settlements
    ensures DebtWithout(Dropped(db, sid, amount, notes, now), sid, db.settlements[sid]) ==
            DebtWithout(db, sid, db.settlements[sid])
  {
    var s, dropped := db.settlements[sid], Dropped(db, sid, amount, notes, now);
    var rows := RowsOfSettlement(db.txs, sid);
    ExcludedRowIsIrrelevant(db.settlements, dropped.settlements, s.group, s.from, s.to, sid);
    ExcludedRowIsIrrelevant(db.settlements, dropped.settlements, s.group, s.to, s.from, sid);
    UnlinkedShares(db.groupTxs, rows, s.group, s.from, s.to);
    UnlinkedShares(db.groupTxs, rows, s.group, s.to, s.from);
    hide Transferred, Sum;
  }

  /** An update of the amount reads the debt without the settlement itself, books the excess over
      it exactly, and leaves that debt as it is for the next update. */
  lemma UpdateBooksExcess(db: Tables, sid: Uuid, amount: Amount, notes: Option<string>, now: Time, db': Tables)
    requires sid in db.settlements && Storable(amount)
    requires UpdateSettlementEffect(db, sid, Some(amount), notes, now, db')
    ensures var s := db.settlements[sid];
            && sid in db'.settlements
            && db'.settlements[sid].(notes := s.notes, updatedAt := s.updatedAt) == s.(amount := Rounded(amount))
            && DebtWithout(db', sid, s) == DebtWithout(db, sid, s)
            && BooksExactly(db'.txs, sid, s, Excess(DebtWithout(db, sid, s), Rounded(amount)))
  {
    var old' := db.settlements[sid];
    var s := UpdatedSettlement(old', Some(amount), notes, now);
    DebtAfterDrop(db, sid, Some(amount), notes, now);
    hide Transferred, Sum, PairBooked, BooksExactly, Rounded;
    var excess := Excess(DebtWithout(db, sid, old'), Rounded(amount));
    BookedAfterDrop(db.txs, sid, s, excess, now, db'.txs);
    SamePartiesSameBooks(db'.txs, sid, s, old', excess);
  }

  /** An update that is otherwise in order is refused if and only if the unrounded amount exceeds the
      debt by less than half a cent. */
  lemma UpdateRefusedIff(db: Tables, sid: Uuid, amount: Amount, notes: Option<string>, now: Time)
    requires sid in db.settlements && Storable(amount)
    requires OneCurrency(db, {db.settlements[sid].from, db.settlements[sid].to})
    ensures RewriteSettlementResult(db, sid, Some(amount), notes, now) ==
            if 0.0 < amount - Max(0, DebtWithout(db, sid, db.settlements[sid])) as real < 0.5 then ServerError else Ok
  {
    DebtAfterDrop(db, sid, Some(amount), notes, now);
    hide PairwiseDebt, OneCurrency, Bookable, ComputeSettlementEffect, Dropped;
    ExcessRounds(DebtWithout(db, sid, db.settlements[sid]), amount);
  }

  ghost predicate AmountUpdates(
    states: seq<Tables>, sid: Uuid, amounts: seq<Amount>, notes: seq<Option<string>>, times: seq<Time>) {
    && |states| == |amounts| + 1 && |notes| == |amounts| && |times| == |amounts|
    && sid in states[0].settlements
    && forall i :: 0 <= i < |amounts| ==>
         && Storable(amounts[i]) && sid in states[i].settlements
         && UpdateSettlementEffect(states[i], sid, Some(amounts[i]), notes[i], times[i], states[i + 1])
  }

  /** After any chain of amount updates the linked rows depend on the last amount and on the debt
      the rest of the ledger gave before the chain, and on nothing else. */
  lemma {:induction false} ChainBooksLastAmount(
    states: seq<Tables>, sid: Uuid, amounts: seq<Amount>, notes: seq<Option<string>>, times: seq<Time>, n: nat)
    requires AmountUpdates(states, sid, amounts, notes, times) && n <= |amounts|
    ensures var s, s' := states[0].settlements[sid], states[n].settlements;
            && sid in s' && s'[sid].group == s.group && s'[sid].from == s.from && s'[sid].to == s.to
            && DebtWithout(states[n], sid, s) == DebtWithout(states[0], sid, s)
            && (n > 0 ==>
                  && s'[sid].amount == Rounded(amounts[n - 1])
                  && BooksExactly(states[n].txs, sid, s,
                       Excess(DebtWithout(states[0], sid, s), Rounded(amounts[n - 1]))))
  {
    hide UpdateSettlementEffect, PairwiseDebt, BooksExactly, Rounded;
    if n > 0 {
      ChainBooksLastAmount(states, sid, amounts, notes, times, n - 1);
      var before := states[n - 1];
      assert UpdateSettlementEffect(before, sid, Some(amounts[n - 1]), notes[n - 1], times[n - 1], states[n - 1 + 1]);
      UpdateBooksExcess(before, sid, amounts[n - 1], notes[n - 1], times[n - 1], states[n]);
      var s, t := states[0].settlements[sid], before.settlements[sid];
      assert DebtWithout(before, sid, s) == DebtWithout(before, sid, t)
          && DebtWithout(states[n], sid, s) == DebtWithout(states[n], sid, t);
      var excess := Excess(DebtWithout(states[0], sid, s), Rounded(amounts[n - 1]));
      SamePartiesSameBooks(states[n].txs, sid, s, t, excess);
    }
  }

  lemma SamePartiesSameBooks(txs: map<Uuid, Tx>, sid: Uuid, s: Settlement, t: Settlement, excess: Cents)
    requires s.from == t.from && s.to == t.to
    ensures BooksExactly(txs, sid, s, excess) == BooksExactly(txs, sid, t, excess)
  {
  }

  // ----- Instalments -----

  /** Settlements `rows` from one user to another, each made on top of the ones before. */
  ghost predicate Instalments(
    sts: seq<map<Uuid, Settlement>>, ids: seq<Uuid>, rows: seq<Settlement>, g: Uuid, from: Uuid, to: Uuid)
  {
    && |sts| == |rows| + 1 && |ids| == |rows|
    && forall i :: 0 <= i < |rows| ==>
        Instalment(sts[i], ids[i], rows[i], g, from, to) && sts[i + 1] == sts[i][ids[i] := rows[i]]
  }

  predicate Instalment(sts: map<Uuid, Settlement>, id: Uuid, s: Settlement, g: Uuid, from: Uuid, to: Uuid) {
    id !in sts && s.group == g && s.from == from && s.to == to && s.amount > 0 && !s.isDeleted
  }

  function Total(rows: seq<Settlement>): Cents {
    if rows == [] then 0 else Total(rows[..|rows| - 1]) + rows[|rows| - 1].amount
  }

  /** The effects of all of them, each against the debt left by the ones before. */
  ghost function Effects(
    gts: map<Uuid, GroupTx>, sts: seq<map<Uuid, Settlement>>, rows: seq<Settlement>, g: Uuid, from: Uuid, to: Uuid)
    : SettlementEffect
    requires |sts| > |rows|
  {
    if rows == [] then SettlementEffect(0.0, 0.0)
    else
      var n := |rows| - 1;
      var before := Effects(gts, sts, rows[..n], g, from, to);
      var e := ComputeSettlementEffect(PairwiseDebt(gts, sts[n], g, from, to, None) as real, rows[n].amount as real);
      SettlementEffect(before.debtCleared + e.debtCleared, before.excess + e.excess)
  }

  lemma OneMoreInstalment(debt: Cents, paid: Cents, amount: Cents)
    requires paid >= 0 && amount > 0
    ensures var e := ComputeSettlementEffect((debt - paid) as real, amount as real);
            && e.excess == (Max(0, paid + amount - Max(0, debt)) - Max(0, paid - Max(0, debt))) as real
            && e.debtCleared == (Min(paid + amount, Max(0, debt)) - Min(paid, Max(0, debt))) as real
  {
  }

  /** If each instalment were set against the debt left by the ones before, paying in instalments would
      clear and exceed what paying at once does. This is about ComputeSettlementEffect on the debt that
      is meant; creating a settlement passes another one, see InstalmentsBookIff. */
  lemma {:induction false} InstalmentsDoNotMatter(
    gts: map<Uuid, GroupTx>, sts: seq<map<Uuid, Settlement>>, ids: seq<Uuid>, rows: seq<Settlement>, g: Uuid,
    from: Uuid, to: Uuid, n: nat)
    requires from != to && Instalments(sts, ids, rows, g, from, to) && n <= |rows|
    ensures var debt, paid := PairwiseDebt(gts, sts[0], g, from, to, None), Total(rows[..n]);
            && paid >= 0
            && PairwiseDebt(gts, sts[n], g, from, to, None) == debt - paid
            && Effects(gts, sts, rows[..n], g, from, to).excess == Max(0, paid - Max(0, debt)) as real
            && Effects(gts, sts, rows[..n], g, from, to).debtCleared == Min(paid, Max(0, debt)) as real
  {
    hide PairwiseDebt, ComputeSettlementEffect, Max, Min;
    var debt := PairwiseDebt(gts, sts[0], g, from, to, None);
    if n == 0 {
      NoInstalments(debt);
    } else {
      InstalmentsDoNotMatter(gts, sts, ids, rows, g, from, to, n - 1);
      assert rows[..n][..n - 1] == rows[..n - 1];
      assert Instalment(sts[n - 1], ids[n - 1], rows[n - 1], g, from, to)
          && sts[n - 1 + 1] == sts[n - 1][ids[n - 1] := rows[n - 1]];
      SettlementLowersDebt(gts, sts[n - 1], ids[n - 1], rows[n - 1]);
      OneMoreInstalment(debt, Total(rows[..n - 1]), rows[n - 1].amount);
    }
  }

  lemma NoInstalments(debt: Cents)
    ensures Max(0, 0 - Max(0, debt)) == 0 && Min(0, Max(0, debt)) == 0
  {
  }

  // ----- What instalments book -----

  /** `caller` sends `amount`, which is stored as the settlement `s`, and the request is accepted. */
  ghost predicate Pays(db: Tables, caller: Uuid, id: Uuid, amount: Amount, s: Settlement, db': Tables) {
    var c := CreateSettlement(caller, id, s.group, s.from, s.to, amount, s.notes);
    && !s.isDeleted && s.amount == Rounded(amount)
    && Result(db, c, s.updatedAt) == Ok && Step(db, c, s.updatedAt, db')
  }

  datatype Sent = Sent(caller: Uuid, id: Uuid, amount: Amount)

  /** One accepted settlement after the other from one user to another. */
  ghost predicate PaymentRun(
    states: seq<Tables>, sent: seq<Sent>, rows: seq<Settlement>, g: Uuid, from: Uuid, to: Uuid)
  {
    && |states| == |rows| + 1 && |sent| == |rows|
    && forall i :: 0 <= i < |rows| ==>
         && rows[i].group == g && rows[i].from == from && rows[i].to == to
         && Pays(states[i], sent[i].caller, sent[i].id, sent[i].amount, rows[i], states[i + 1])
  }

  function CashTerm(txs: map<Uuid, Tx>, u: Uuid, kind: Kind): Uuid -> int {
    (p: Uuid) =>
      if p in txs && txs[p].settlement.Some? && txs[p].user == u && txs[p].kind == kind then txs[p].amount else 0
  }

  /** The income or expense of `u` that settlements have booked. */
  ghost function Cash(txs: map<Uuid, Tx>, u: Uuid, kind: Kind): Cents {
    Sum(txs.Keys, CashTerm(txs, u, kind))
  }

  lemma OneRowOfCash(txs: map<Uuid, Tx>, p: Uuid, tx: Tx, u: Uuid, kind: Kind)
    requires p !in txs && tx.settlement.Some?
    ensures Cash(txs[p := tx], u, kind) == Cash(txs, u, kind) + if tx.user == u && tx.kind == kind then tx.amount else 0
  {
    var txs' := txs[p := tx];
    assert txs'.Keys == txs.Keys + {p};
    SumPut(txs.Keys, CashTerm(txs', u, kind), p);
    SumAgree(txs.Keys, CashTerm(txs', u, kind), CashTerm(txs, u, kind));
  }

  /** A booked pair is income of the recipient and expense of the payer. */
  lemma PairAddsCash(txs: map<Uuid, Tx>, sid: Uuid, s: Settlement, excess: Cents, now: Time, txs': map<Uuid, Tx>)
    requires PairBooked(txs, sid, s, excess, now, txs') && excess >= 0
    ensures Cash(txs', s.to, Income) == Cash(txs, s.to, Income) + excess
    ensures Cash(txs', s.from, Expense) == Cash(txs, s.from, Expense) + excess
  {
    if excess > 0 {
      var income := SettlementRow(s.to, Income, excess, sid, s.notes, now);
      var expense := SettlementRow(s.from, Expense, excess, sid, s.notes, now);
      var p, q :| p !in txs && q !in txs && p != q && txs' == txs[p := income][q := expense];
      OneRowOfCash(txs, p, income, s.to, Income);
      OneRowOfCash(txs[p := income], q, expense, s.to, Income);
      OneRowOfCash(txs, p, income, s.from, Expense);
      OneRowOfCash(txs[p := income], q, expense, s.from, Expense);
    }
  }

  /** What the settlements `rows` book on a debt: each reads the debt that it has already lowered. */
  function Booked(debt: Cents, rows: seq<Settlement>): Cents {
    if rows == [] then 0
    else Booked(debt, rows[..|rows| - 1]) + Excess(debt - Total(rows), rows[|rows| - 1].amount)
  }

  lemma PaymentBooks(db: Tables, caller: Uuid, id: Uuid, amount: Amount, s: Settlement, db': Tables)
    requires Pays(db, caller, id, amount, s, db')
    ensures s.amount > 0
    ensures Debt(db', s.group, s.from, s.to) == Debt(db, s.group, s.from, s.to) - s.amount
    ensures var excess := Excess(Debt(db, s.group, s.from, s.to) - s.amount, s.amount);
            && Cash(db'.txs, s.to, Income) == Cash(db.txs, s.to, Income) + excess
            && Cash(db'.txs, s.from, Expense) == Cash(db.txs, s.from, Expense) + excess
  {
    hide PairwiseDebt, PairBooked, Cash;
    SettlementLowersDebt(db.groupTxs, db.settlements, id, s);
    var excess := Excess(Debt(db, s.group, s.from, s.to) - s.amount, s.amount);
    PairAddsCash(db.txs, id, s, excess, s.updatedAt, db'.txs);
  }

  lemma {:induction false} PaymentRunBooks(
    states: seq<Tables>, sent: seq<Sent>, rows: seq<Settlement>, g: Uuid, from: Uuid, to: Uuid,
    n: nat)
    requires PaymentRun(states, sent, rows, g, from, to) && n <= |rows|
    ensures var debt := Debt(states[0], g, from, to);
            && Debt(states[n], g, from, to) == debt - Total(rows[..n])
            && Cash(states[n].txs, to, Income) == Cash(states[0].txs, to, Income) + Booked(debt, rows[..n])
            && Cash(states[n].txs, from, Expense) == Cash(states[0].txs, from, Expense) + Booked(debt, rows[..n])
    ensures forall i :: 0 <= i < n ==> rows[i].amount > 0
  {
    hide Pays, Debt, Cash, Excess;
    if n > 0 {
      PaymentRunBooks(states, sent, rows, g, from, to, n - 1);
      assert rows[..n][..n - 1] == rows[..n - 1];
      var p := sent[n - 1];
      assert Pays(states[n - 1], p.caller, p.id, p.amount, rows[n - 1], states[n - 1 + 1]);
      PaymentBooks(states[n - 1], p.caller, p.id, p.amount, rows[n - 1], states[n]);
    }
  }

  /** The excess of everything paid over the debt there was. */
  function MeantExcess(debt: Cents, paid: Cents): Cents {
    Max(0, paid - Max(0, debt))
  }

  /** No debt left, or at least twice the amount of it. */
  predicate ClearOfDebt(left: Cents, amount: Cents) {
    left <= 0 || 2 * amount <= left
  }

  /** One payment books at least what it should, and exactly that if and only if it is clear of debt. */
  lemma OneMoreBooked(debt: Cents, paid: Cents, amount: Cents)
    requires paid >= 0 && amount > 0
    ensures var more := MeantExcess(debt, paid + amount) - MeantExcess(debt, paid);
            && Excess(debt - paid - amount, amount) >= more
            && (Excess(debt - paid - amount, amount) == more <==> ClearOfDebt(debt - paid, amount))
  {
  }

  /** So is every one of `rows`, set against the debt left by the ones before. */
  ghost predicate AllClear(debt: Cents, rows: seq<Settlement>) {
    forall i :: 0 <= i < |rows| ==> ClearOfDebt(debt - Total(rows[..i]), rows[i].amount)
  }

  lemma AllClearOneMore(debt: Cents, rows: seq<Settlement>)
    requires rows != []
    ensures var n := |rows| - 1;
            AllClear(debt, rows) <==>
            AllClear(debt, rows[..n]) && ClearOfDebt(debt - Total(rows[..n]), rows[n].amount)
  {
    hide ClearOfDebt, Total;
    var less := rows[..|rows| - 1];
    assert forall i :: 0 <= i < |less| ==> less[..i] == rows[..i] && less[i] == rows[i];
  }

  lemma {:induction false} BookedIff(debt: Cents, rows: seq<Settlement>)
    requires forall i :: 0 <= i < |rows| ==> rows[i].amount > 0
    ensures Total(rows) >= 0 && Booked(debt, rows) >= MeantExcess(debt, Total(rows))
    ensures Booked(debt, rows) == MeantExcess(debt, Total(rows)) <==> AllClear(debt, rows)
  {
    if rows != [] {
      var n := |rows| - 1;
      BookedIff(debt, rows[..n]);
      OneMoreBooked(debt, Total(rows[..n]), rows[n].amount);
      AllClearOneMore(debt, rows);
      hide Excess, MeantExcess, ClearOfDebt, AllClear;
    }
  }

  lemma PaymentRunClear(
    states: seq<Tables>, sent: seq<Sent>, rows: seq<Settlement>, g: Uuid, from: Uuid, to: Uuid)
    requires PaymentRun(states, sent, rows, g, from, to)
    ensures AllClear(Debt(states[0], g, from, to), rows) <==>
            forall i :: 0 <= i < |rows| ==> ClearOfDebt(Debt(states[i], g, from, to), rows[i].amount)
  {
    assert |states| == |rows| + 1;
    hide PaymentRun, Debt, ClearOfDebt, Total;
    forall i | 0 <= i < |rows|
      ensures Debt(states[i], g, from, to) == Debt(states[0], g, from, to) - Total(rows[..i])
    {
      PaymentRunBooks(states, sent, rows, g, from, to, i);
    }
  }

  /** Instalments book at least the excess of their sum over the debt there was, and exactly that if
      and only if before each of them no debt is left, or at least twice its amount. */
  lemma InstalmentsBookIff(
    states: seq<Tables>, sent: seq<Sent>, rows: seq<Settlement>, g: Uuid, from: Uuid, to: Uuid)
    requires PaymentRun(states, sent, rows, g, from, to)
    ensures var n, meant := |rows|, MeantExcess(Debt(states[0], g, from, to), Total(rows));
            var income := Cash(states[n].txs, to, Income) - Cash(states[0].txs, to, Income);
            && income == Cash(states[n].txs, from, Expense) - Cash(states[0].txs, from, Expense)
            && income >= meant
            && (income == meant <==>
                  forall i :: 0 <= i < n ==> ClearOfDebt(Debt(states[i], g, from, to), rows[i].amount))
  {
    assert |states| == |rows| + 1;
    hide PaymentRun, Debt, Cash, MeantExcess, ClearOfDebt, AllClear, Booked, Total;
    PaymentRunBooks(states, sent, rows, g, from, to, |rows|);
    assert rows[..|rows|] == rows;
    BookedIff(Debt(states[0], g, from, to), rows);
    PaymentRunClear(states, sent, rows, g, from, to);
  }
}
