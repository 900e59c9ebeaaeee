/** Accepted requests that leave the ledger broken. */
module LedgerExamples {
  import opened Wrappers
  import opened Sums
  import opened Ledger
  import opened Balances
  import opened Splits
  import opened Handlers
  import opened GroupLedger
  import opened SettlementLaws
  import opened SplitLinks
  import opened RowKinds

  const MEAL := Details("food", 0, None, None)

  /** Group 9 of user 1 with one shared transaction of 1.00, all of it user 1's share. */
  function OneShare(amount: Cents, row: Cents): Tables {
    Tables(
      map[1 := "EUR"],
      map[9 := Group(1, {1}, false, 0)],
      map[7 := GroupTx(9, 1, 100, MEAL, false, 0, map[1 := Split(11, amount, Some(21))])],
      map[21 := Tx(1, Expense, row, MEAL, Some(7), None, false, 0)],
      map[])
  }

  lemma OneShareInv()
    ensures Inv(OneShare(100, 100))
  {
    var db := OneShare(100, 100);
    var splits := db.groupTxs[7].splits;
    SumOne(splits.Keys, SplitAmounts(splits), 1);
    assert LinksOk(db.txs, 7, splits);
    assert GroupTxOk(db.groups, db.txs, 7, db.groupTxs[7]);
    assert Linked(splits, 1, 21);
  }

  const TWICE := [SplitInput(1, 60.0), SplitInput(1, 40.0)]

  lemma TwiceIsRepeated()
    ensures InputSum(TWICE) == 100.0 && Users(TWICE) == {1} && AmountOf(TWICE, 1) == 40 && AllStorable(TWICE)
  {
    assert TWICE[..1] == [SplitInput(1, 60.0)] && TWICE[..1][..0] == [];
    assert TWICE[0].user == TWICE[1].user == 1;
  }

  lemma OneShareSum(amount: Cents)
    ensures SplitSum(OneShare(amount, amount).groupTxs[7].splits) == amount
    ensures OneShare(amount, amount).groupTxs[7].total == 100
  {
    var splits := OneShare(amount, amount).groupTxs[7].splits;
    SumOne(splits.Keys, SplitAmounts(splits), 1);
  }

  lemma RepeatedUserResult(req: CreateGroupTxRequest)
    requires req == CreateGroupTxRequest(7, 1, 100.0, MEAL, TWICE, Some(0))
    ensures Result(OneShare(100, 100), CreateGroupTx(1, 9, req), 0) == Ok
    ensures CreateGroupTxResult(OneShare(100, 100), 1, 9, req, 0) == Ok
  {
    TwiceIsRepeated();
    hide InputSum, Users;
  }

  /** A user whose split exists, named twice: accepted, the last amount wins, whatever state comes out, and
      the splits no longer add up to the total. */
  lemma RepeatedUserBreaksTheSum()
    ensures var db, req := OneShare(100, 100), CreateGroupTxRequest(7, 1, 100.0, MEAL, TWICE, Some(0));
            && Inv(db) && Result(db, CreateGroupTx(1, 9, req), 0) == Ok
            && forall db' :: Step(db, CreateGroupTx(1, 9, req), 0, db') ==>
                 db' == OneShare(40, 40) && SplitSum(db'.groupTxs[7].splits) == 40 != db'.groupTxs[7].total
  {
    hide Inv, Result, Step, CreateGroupTxResult, CreateGroupTxEffect, SplitSum;
    OneShareInv();
    var db, req := OneShare(100, 100), CreateGroupTxRequest(7, 1, 100.0, MEAL, TWICE, Some(0));
    RepeatedUserResult(req);
    OneShareSum(40);
    hide OneShare;
    forall db' | Step(db, CreateGroupTx(1, 9, req), 0, db')
      ensures db' == OneShare(40, 40)
    {
      AcceptedCreate(db, 1, 9, req, 0, db');
      RepeatedUserOutcome(req, db');
    }
  }

  lemma RepeatedUserOutcome(req: CreateGroupTxRequest, db': Tables)
    requires req == CreateGroupTxRequest(7, 1, 100.0, MEAL, TWICE, Some(0))
    requires CreateGroupTxEffect(OneShare(100, 100), 9, req, 0, db')
    ensures db' == OneShare(40, 40)
  {
    var txs, splits, splits' := OneShare(100, 100).txs, OneShare(100, 100).groupTxs[7].splits, db'.groupTxs[7].splits;
    TwiceIsRepeated();
    assert LinksOk(txs, 7, splits);
    NothingToTrim(txs, splits, {1}, 0);
    hide LinksOk, Users, AmountOf, InputSum;
    assert AllServed(txs, splits, 7, TWICE, MEAL, 0, db'.txs, splits');
    assert ServedBy(txs, splits, 7, 1, 40, MEAL, 0, db'.txs, splits'[1]);
    NoRowMade(txs, splits, db'.txs);
    assert splits' == OneShare(40, 40).groupTxs[7].splits;
    assert db'.txs == OneShare(40, 40).txs;
  }

  /** Both requests are for a user with a row. */
  lemma NoRowMade(txs: map<Uuid, Tx>, splits: map<Uuid, Split>, txs': map<Uuid, Tx>)
    requires HasRow(splits, 1) && txs.Keys == {21} && 21 in txs'
    requires exists made: map<nat, Uuid> :: RowsMade(made, txs, splits, 7, TWICE, MEAL, 0, txs')
    ensures txs'.Keys == {21}
  {
    var made: map<nat, Uuid> :| RowsMade(made, txs, splits, 7, TWICE, MEAL, 0, txs');
    assert forall i: nat :: i < |TWICE| ==> TWICE[i].user == 1;
    assert forall p :: p in txs' ==> p in txs;
  }

  /** A personal upsert may rewrite the row of a split: accepted, and row and split disagree. */
  lemma UpsertRewritesASplitRow()
    ensures var db := OneShare(100, 100);
            var req := UpsertTxRequest(21, Expense, 5.0, MEAL, Some(0));
            && Inv(db) && UpsertTxResult(db, 1, req, 0) == Ok
            && UpsertTxEffect(db, 1, req, 0) == OneShare(100, 5) && !Inv(UpsertTxEffect(db, 1, req, 0))
  {
    OneShareInv();
    AcceptedUpsertKeepsIff(OneShare(100, 100), 1, UpsertTxRequest(21, Expense, 5.0, MEAL, Some(0)), 0);
  }

  const ALL_MINE := [SplitInput(1, 100.0)]

  lemma AllMineAddsUp()
    ensures InputSum(ALL_MINE) == 100.0 && Users(ALL_MINE) == {1} && AmountOf(ALL_MINE, 1) == 100
    ensures Distinct(ALL_MINE) && AllStorable(ALL_MINE) && StoredSum(ALL_MINE) == 100
  {
    assert ALL_MINE[..0] == [];
    OneMoreInput([], ALL_MINE[0]);
    assert [] + [ALL_MINE[0]] == ALL_MINE;
  }

  /** The shared transaction is deleted, its member sends its deleted row as an income, and the
      transaction is sent again. All three are accepted and careful, and the member's share is now a live
      income: to leave the kind of live rows alone is not enough. */
  lemma DeletedShareComesBackAsIncome(db1: Tables, db2: Tables, db3: Tables)
    requires Step(OneShare(100, 100), DeleteGroupTx(1, 9, 7), 0, db1)
    requires Step(db1, UpsertTx(1, UpsertTxRequest(21, Income, 100.0, MEAL, Some(0))), 0, db2)
    requires Step(db2, CreateGroupTx(1, 9, CreateGroupTxRequest(7, 1, 100.0, MEAL, ALL_MINE, Some(0))), 0, db3)
    ensures Careful(db1, UpsertTx(1, UpsertTxRequest(21, Income, 100.0, MEAL, Some(0)))) && db1.txs[21].isDeleted
    ensures UpsertTxResult(db1, 1, UpsertTxRequest(21, Income, 100.0, MEAL, Some(0)), 0) == Ok
    ensures Careful(db2, CreateGroupTx(1, 9, CreateGroupTxRequest(7, 1, 100.0, MEAL, ALL_MINE, Some(0))))
    ensures 21 in db3.txs && !db3.txs[21].isDeleted && db3.txs[21].groupTx == Some(7) && db3.txs[21].kind == Income
  {
    hide Step, Careful, Result, OneShare;
    ShareDeleted(db1);
    ShareSentAsIncome(db1, db2);
    SentAgain(db2, db3);
  }

  /** The one share, deleted, with a row of either kind. */
  function DeletedShare(kind: Kind): Tables {
    OneShare(100, 100).(
      groupTxs := map[7 := OneShare(100, 100).groupTxs[7].(isDeleted := true)],
      txs := map[21 := Tx(1, kind, 100, MEAL, Some(7), None, true, 0)])
  }

  lemma ShareDeleted(db1: Tables)
    requires Step(OneShare(100, 100), DeleteGroupTx(1, 9, 7), 0, db1)
    ensures db1 == DeletedShare(Expense)
  {
    assert db1.txs == DeletedShare(Expense).txs;
  }

  lemma ShareSentAsIncome(db1: Tables, db2: Tables)
    requires db1 == DeletedShare(Expense)
    requires Step(db1, UpsertTx(1, UpsertTxRequest(21, Income, 100.0, MEAL, Some(0))), 0, db2)
    ensures Careful(db1, UpsertTx(1, UpsertTxRequest(21, Income, 100.0, MEAL, Some(0)))) && db1.txs[21].isDeleted
    ensures UpsertTxResult(db1, 1, UpsertTxRequest(21, Income, 100.0, MEAL, Some(0)), 0) == Ok
    ensures db2 == DeletedShare(Income)
  {
    assert db2.txs == DeletedShare(Income).txs;
  }

  lemma SentAgain(db: Tables, db': Tables)
    requires db == DeletedShare(Income)
    requires Step(db, CreateGroupTx(1, 9, CreateGroupTxRequest(7, 1, 100.0, MEAL, ALL_MINE, Some(0))), 0, db')
    ensures 21 in db'.txs && !db'.txs[21].isDeleted && db'.txs[21].groupTx == Some(7) && db'.txs[21].kind == Income
    ensures Careful(db, CreateGroupTx(1, 9, CreateGroupTxRequest(7, 1, 100.0, MEAL, ALL_MINE, Some(0))))
  {
    hide CreateGroupTxEffect, AmountOf, Users, InputSum, Distinct, StoredSum, Lands;
    var req := CreateGroupTxRequest(7, 1, 100.0, MEAL, ALL_MINE, Some(0));
    AllMineAddsUp();
    assert CreateGroupTxResult(db, 1, 9, req, 0) == Ok;
    assert Linked(db.groupTxs[7].splits, 1, 21) && LinksOk(db.txs, 7, db.groupTxs[7].splits);
    hide CreateGroupTxResult;
    AcceptedCreate(db, 1, 9, req, 0, db');
    RevivedRowKeepsKind(db, 1, 9, req, 0, db', 1, 21);
    DistinctLandsIff(db.groupTxs[7].splits, ALL_MINE, 100);
  }

  // ----- Settlements -----

  /** User 1 has paid for a dinner that users 1 and 2 share: user 2 owes one share. */
  function Dinner(share: Cents): Tables {
    Tables(
      map[1 := "EUR", 2 := "EUR"],
      map[9 := Group(1, {1, 2}, false, 0)],
      map[7 := GroupTx(9, 1, 2 * share, MEAL, false, 0,
          map[1 := Split(11, share, Some(21)), 2 := Split(12, share, Some(22))])],
      map[21 := Tx(1, Expense, share, MEAL, Some(7), None, false, 0),
          22 := Tx(2, Expense, share, MEAL, Some(7), None, false, 0)],
      map[])
  }

  lemma DinnerInv(share: Cents)
    requires share > 0
    ensures Inv(Dinner(share))
  {
    var db := Dinner(share);
    var splits := db.groupTxs[7].splits;
    SumTake(splits.Keys, SplitAmounts(splits), 1);
    assert splits.Keys - {1} == {2};
    SumOne({2}, SplitAmounts(splits), 2);
    assert LinksOk(db.txs, 7, splits);
    assert MirroredSplit(db.txs, splits[1]) && MirroredSplit(db.txs, splits[2]);
    assert GroupTxOk(db.groups, db.txs, 7, db.groupTxs[7]);
    assert Linked(splits, 1, 21) && Linked(splits, 2, 22);
  }

  lemma DinnerDebt(share: Cents)
    ensures Debt(Dinner(share), 9, 2, 1) == share
  {
    var gts := Dinner(share).groupTxs;
    SumOne(gts.Keys, ShareTerm(gts, 9, 2, 1), 7);
    SumZero(gts.Keys, ShareTerm(gts, 9, 1, 2));
    assert SplitAmounts(gts[7].splits)(2) == share;
    assert ShareTerm(gts, 9, 2, 1)(7) == share;
  }

  function Payment(amount: Cents): Settlement {
    Settlement(9, 2, 1, amount, None, false, 0)
  }

  /** In whole cents every payment is accepted. */
  lemma PaymentAccepted(share: Cents, db: Tables, id: Uuid, amount: Cents)
    requires db.groups == Dinner(share).groups && db.currencies == Dinner(share).currencies
    requires id !in db.settlements && amount > 0
    ensures Result(db, CreateSettlement(2, id, 9, 2, 1, amount as real, None), 0) == Ok
  {
    WholeCents(amount);
    hide Debt, CreateSettlementResult, Rounded, Max;
    CreateRefusedIff(db, 2, id, 9, 2, 1, amount as real, None, 0);
    var over := amount - Max(0, Debt(db, 9, 2, 1) - amount);
    assert amount as real - (amount - over) as real == over as real;
  }

  lemma PaymentStep(db: Tables, id: Uuid, amount: Cents, db': Tables)
    requires Result(db, CreateSettlement(2, id, 9, 2, 1, amount as real, None), 0) == Ok
    requires Step(db, CreateSettlement(2, id, 9, 2, 1, amount as real, None), 0, db')
    ensures Pays(db, 2, id, amount as real, Payment(amount), db')
    ensures CreateSettlementEffect(db, id, Payment(amount), 0, db')
  {
    WholeCents(amount);
    hide CreateSettlementEffect, Rounded;
  }

  lemma NothingOwedAllExcess(amount: Cents)
    requires amount > 0
    ensures Excess(0, amount) == amount
  {
  }

  lemma WholeDebtBooked(debt: Cents, db': Tables)
    requires debt > 0 && Debt(Dinner(debt), 9, 2, 1) == debt
    requires CreateSettlementEffect(Dinner(debt), 3, Payment(debt), 0, db')
    ensures BooksExactly(db'.txs, 3, Payment(debt), debt)
  {
    var db := Dinner(debt);
    hide PairwiseDebt, PairBooked, BooksExactly, Debt, Excess, CreateSettlementEffect;
    NothingOwedAllExcess(debt);
    CreateBooksExcessIff(db, 3, Payment(debt), 0, db');
    assert db.txs - RowsOfSettlement(db.txs, 3) == db.txs;
    BookedAfterDrop(db.txs, 3, Payment(debt), debt, 0, db'.txs);
  }

  /** User 2 pays the whole debt, as in the repository's own example of 50.00. The request is accepted,
      and whatever state comes out has the whole amount booked again. */
  lemma PaidDebtIsBookedAgain(debt: Cents)
    requires debt > 0
    ensures var db, c := Dinner(debt), CreateSettlement(2, 3, 9, 2, 1, debt as real, None);
            && Inv(db) && Debt(db, 9, 2, 1) == debt && Result(db, c, 0) == Ok
            && forall db' :: Step(db, c, 0, db') ==> BooksExactly(db'.txs, 3, Payment(debt), debt)
  {
    var db, c := Dinner(debt), CreateSettlement(2, 3, 9, 2, 1, debt as real, None);
    DinnerInv(debt);
    DinnerDebt(debt);
    PaymentAccepted(debt, db, 3, debt);
    hide Inv, Dinner, Debt, Step, Result, Payment, BooksExactly, CreateSettlementEffect;
    forall db' | Step(db, c, 0, db')
      ensures BooksExactly(db'.txs, 3, Payment(debt), debt)
    {
      PaymentStep(db, 3, debt, db');
      WholeDebtBooked(debt, db');
    }
  }

  /** User 2 pays the debt in two halves. Both requests are accepted; nothing should be booked, and
      whatever states come out have one half booked. */
  lemma TwoHalvesBookOne(half: Cents, db1: Tables, db2: Tables)
    requires half > 0
    requires Step(Dinner(2 * half), CreateSettlement(2, 3, 9, 2, 1, half as real, None), 0, db1)
    requires Step(db1, CreateSettlement(2, 4, 9, 2, 1, half as real, None), 0, db2)
    ensures Inv(Dinner(2 * half)) && MeantExcess(Debt(Dinner(2 * half), 9, 2, 1), half + half) == 0
    ensures Result(Dinner(2 * half), CreateSettlement(2, 3, 9, 2, 1, half as real, None), 0) == Ok
    ensures Result(db1, CreateSettlement(2, 4, 9, 2, 1, half as real, None), 0) == Ok
    ensures Cash(db2.txs, 1, Income) == Cash(db2.txs, 2, Expense) == half
  {
    hide Inv, Step, Result, Pays, PairwiseDebt, PairBooked, Cash;
    var db, s := Dinner(2 * half), Payment(half);
    DinnerInv(2 * half);
    DinnerDebt(2 * half);
    NoCashYet(2 * half);
    PaymentAccepted(2 * half, db, 3, half);
    PaymentStep(db, 3, half, db1);
    PaymentAccepted(2 * half, db1, 4, half);
    PaymentStep(db1, 4, half, db2);
    hide CreateSettlementEffect, Dinner;
    PaymentBooks(db, 2, 3, half as real, s, db1);
    PaymentBooks(db1, 2, 4, half as real, s, db2);
  }

  lemma NoCashYet(share: Cents)
    ensures Cash(Dinner(share).txs, 1, Income) == 0 && Cash(Dinner(share).txs, 2, Expense) == 0
  {
    var txs := Dinner(share).txs;
    SumZero(txs.Keys, CashTerm(txs, 1, Income));
    SumZero(txs.Keys, CashTerm(txs, 2, Expense));
  }

  // ----- Amounts finer than a cent -----

  /** Group 9 of users 1, 2 and 3, with nothing in it. */
  const TRIO := Tables(
    map[1 := "EUR", 2 := "EUR", 3 := "EUR"], map[9 := Group(1, {1, 2, 3}, false, 0)], map[], map[], map[])

  /** 3.3333, 3.3333 and 3.3334. */
  const THIRDS := [SplitInput(1, 333.33), SplitInput(2, 333.33), SplitInput(3, 333.34)]

  lemma ThirdsRound()
    ensures Rounded(333.33) == 333 && Rounded(333.34) == 333
  {
  }

  lemma ThirdsAddUp()
    ensures InputSum(THIRDS) == 1000.0 && StoredSum(THIRDS) == 999
    ensures Users(THIRDS) == {1, 2, 3} && Distinct(THIRDS) && AllStorable(THIRDS)
  {
    hide Rounded;
    ThirdsRound();
    var third, last := SplitInput(2, 333.33), SplitInput(3, 333.34);
    OneMoreInput([], THIRDS[0]);
    OneMoreInput([THIRDS[0]], third);
    OneMoreInput([THIRDS[0], third], last);
    assert [] + [THIRDS[0]] == [THIRDS[0]] && [THIRDS[0]] + [third] == [THIRDS[0], third];
    assert [THIRDS[0], third] + [last] == THIRDS;
    assert THIRDS[0].user == 1 && THIRDS[1].user == 2 && THIRDS[2].user == 3;
  }

  /** The splits sum to 9.99, the total is 10.00, and the balances sum to a cent. */
  ghost predicate OneCentShort(db: Tables) {
    && 7 in db.groupTxs && SplitSum(db.groupTxs[7].splits) == 999 && db.groupTxs[7].total == 1000
    && Sum({1, 2, 3}, BalanceOf(db.groupTxs, db.settlements, 9)) == 1
  }

  /** Three distinct members share 10.00: accepted, since the unrounded splits add up. Whatever state
      comes out has splits of 9.99 for a total of 10.00, and balances that sum to a cent. */
  lemma ThirdsLoseACent()
    ensures var req := CreateGroupTxRequest(7, 1, 1000.0, MEAL, THIRDS, Some(0));
            && Inv(TRIO) && Result(TRIO, CreateGroupTx(1, 9, req), 0) == Ok
            && forall db' :: Step(TRIO, CreateGroupTx(1, 9, req), 0, db') ==> OneCentShort(db') && !Inv(db')
  {
    var req := CreateGroupTxRequest(7, 1, 1000.0, MEAL, THIRDS, Some(0));
    hide Inv, Result, Step, CreateGroupTxResult, CreateGroupTxEffect, OneCentShort;
    ThirdsAccepted(req);
    EmptyGroupInv();
    forall db' | Step(TRIO, CreateGroupTx(1, 9, req), 0, db')
      ensures OneCentShort(db') && !Inv(db')
    {
      AcceptedCreate(TRIO, 1, 9, req, 0, db');
      ThirdsOutcome(req, db');
    }
  }

  lemma EmptyGroupInv()
    ensures Inv(TRIO)
  {
  }

  lemma ThirdsAccepted(req: CreateGroupTxRequest)
    requires req == CreateGroupTxRequest(7, 1, 1000.0, MEAL, THIRDS, Some(0))
    ensures Result(TRIO, CreateGroupTx(1, 9, req), 0) == Ok && CreateGroupTxResult(TRIO, 1, 9, req, 0) == Ok
  {
    ThirdsAddUp();
    hide InputSum, Users, AllStorable;
    assert THIRDS[0].user == 1 && THIRDS[1].user == 2 && THIRDS[2].user == 3;
  }

  lemma ThirdsOutcome(req: CreateGroupTxRequest, db': Tables)
    requires req == CreateGroupTxRequest(7, 1, 1000.0, MEAL, THIRDS, Some(0))
    requires CreateGroupTxEffect(TRIO, 9, req, 0, db')
    ensures OneCentShort(db') && !Inv(db')
  {
    var gts := db'.groupTxs;
    ThirdsAddUp();
    hide Served, InputSum, AmountOf, Users, StoredSum, Distinct, Sum, AllStorable, BalanceOf;
    AppliedSum(gts[7].splits, THIRDS);
    DistinctAddsUp(THIRDS);
    hide SplitSum;
    assert !GroupTxOk(db'.groups, db'.txs, 7, gts[7]);
    OneCentLeft(gts, gts[7]);
  }

  lemma OneCentLeft(gts: map<Uuid, GroupTx>, gt: GroupTx)
    requires gts == map[7 := gt] && gt.group == 9 && !gt.isDeleted && gt.paidBy == 1 && gt.splits.Keys == {1, 2, 3}
    requires gt.total == 1000 && SplitSum(gt.splits) == 999
    ensures Sum({1, 2, 3}, BalanceOf(gts, map[], 9)) == 1
  {
    hide SplitSum, BalanceOf;
    BalancesAddUp(gts, map[], 9, {1, 2, 3});
    assert LiveTx(gts, 9, 7);
    assert TotalTerm(gts, 9)(7) == 1000 && SplitTerm(gts, 9)(7) == 999;
    SumOne(gts.Keys, UnsplitTerm(gts, 9), 7);
  }

  /** 0.005 and then 5.00 for user 1, and 4.995 for user 2. */
  const HALVES := [SplitInput(1, 0.5), SplitInput(1, 500.0), SplitInput(2, 499.5)]

  lemma HalvesAddUp()
    ensures InputSum(HALVES) == 1000.0 && Users(HALVES) == {1, 2} && AllStorable(HALVES)
    ensures AmountOf(HALVES, 1) == 500 && AmountOf(HALVES, 2) == 500
  {
    assert HALVES[..2][..1] == [SplitInput(1, 0.5)] && [SplitInput(1, 0.5)][..0] == [];
    assert HALVES[0].user == 1 && HALVES[1].user == 1 && HALVES[2].user == 2;
  }

  /** A repeated user need not break the sum: this request is accepted and keeps the ledger whole. */
  lemma HalfCentsKeepTheSum()
    ensures var db, req := Dinner(500), CreateGroupTxRequest(7, 1, 1000.0, MEAL, HALVES, Some(0));
            && Inv(db) && !Distinct(HALVES) && Result(db, CreateGroupTx(1, 9, req), 0) == Ok
            && forall db' :: Step(db, CreateGroupTx(1, 9, req), 0, db') ==> Inv(db')
  {
    var db, req := Dinner(500), CreateGroupTxRequest(7, 1, 1000.0, MEAL, HALVES, Some(0));
    hide Inv, Result, Step, CreateLands, Dinner;
    DinnerInv(500);
    HalvesAccepted(req);
    HalvesLand(req);
    assert HALVES[0].user == HALVES[1].user;
    assert Careful(db, CreateGroupTx(1, 9, req));
    hide Careful;
    forall db' | Step(db, CreateGroupTx(1, 9, req), 0, db')
      ensures Inv(db')
    {
      StepKeeps(db, CreateGroupTx(1, 9, req), 0, db');
    }
  }

  lemma HalvesAccepted(req: CreateGroupTxRequest)
    requires req == CreateGroupTxRequest(7, 1, 1000.0, MEAL, HALVES, Some(0))
    ensures Result(Dinner(500), CreateGroupTx(1, 9, req), 0) == Ok
  {
    HalvesAddUp();
    hide InputSum, Users, AllStorable;
    assert HALVES[0].user == 1 && HALVES[1].user == 1 && HALVES[2].user == 2;
  }

  lemma HalvesLand(req: CreateGroupTxRequest)
    requires req == CreateGroupTxRequest(7, 1, 1000.0, MEAL, HALVES, Some(0))
    ensures CreateLands(Dinner(500), req)
  {
    HalvesAddUp();
    hide Users, AmountOf;
    SumTake({1, 2}, AmountIn(HALVES), 1);
    assert {1, 2} - {1} == {2};
    SumOne({2}, AmountIn(HALVES), 2);
  }

  /** A settlement of 10.004 on a debt of 10.00, by way of an update, is refused. */
  lemma TinyExcessIsRefused(db: Tables, sid: Uuid, notes: Option<string>, now: Time)
    requires sid in db.settlements && DebtWithout(db, sid, db.settlements[sid]) == 1000
    requires OneCurrency(db, {db.settlements[sid].from, db.settlements[sid].to})
    ensures RewriteSettlementResult(db, sid, Some(1000.4), notes, now) == ServerError
  {
    hide OneCurrency, RewriteSettlementResult;
    UpdateRefusedIff(db, sid, 1000.4, notes, now);
  }
}
