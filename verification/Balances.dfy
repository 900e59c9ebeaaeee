/** What the balances of a group mean: they cancel out, they are made of pairwise debts, and the
    one-pass accumulation computes them. */
module Balances {
  import opened Wrappers
  import opened Sums
  import opened Ledger

  /** Every live shared transaction of the group is split in full. */
  ghost predicate SplitInFull(gts: map<Uuid, GroupTx>, g: Uuid) {
    forall id :: LiveTx(gts, g, id) ==> SplitSum(gts[id].splits) == gts[id].total
  }

  /** `users` holds everybody named in a live row of the group, members or not. */
  ghost predicate NamesAll(gts: map<Uuid, GroupTx>, sts: map<Uuid, Settlement>, g: Uuid, users: set<Uuid>) {
    && (forall id :: LiveTx(gts, g, id) ==> gts[id].paidBy in users && gts[id].splits.Keys <= users)
    && (forall id :: LiveSettlement(sts, g, id) ==> sts[id].from in users && sts[id].to in users)
  }

  // ----- Conservation -----

  ghost function TotalTerm(gts: map<Uuid, GroupTx>, g: Uuid): Uuid -> int {
    (id: Uuid) => if LiveTx(gts, g, id) then gts[id].total else 0
  }

  ghost function SplitTerm(gts: map<Uuid, GroupTx>, g: Uuid): Uuid -> int {
    (id: Uuid) => if LiveTx(gts, g, id) then SplitSum(gts[id].splits) else 0
  }

  ghost function UnsplitTerm(gts: map<Uuid, GroupTx>, g: Uuid): Uuid -> int {
    (id: Uuid) => TotalTerm(gts, g)(id) - SplitTerm(gts, g)(id)
  }

  ghost function AmountTerm(sts: map<Uuid, Settlement>, g: Uuid): Uuid -> int {
    (id: Uuid) => if LiveSettlement(sts, g, id) then sts[id].amount else 0
  }

  // The matrices behind the double sums: by user, then by row.

  ghost function PaidTerms(gts: map<Uuid, GroupTx>, g: Uuid): Uuid -> Uuid -> int {
    (u: Uuid) => PaidTerm(gts, g, u)
  }

  ghost function OwedTerms(gts: map<Uuid, GroupTx>, g: Uuid): Uuid -> Uuid -> int {
    (u: Uuid) => OwedTerm(gts, g, u)
  }

  ghost function SentTerms(sts: map<Uuid, Settlement>, g: Uuid): Uuid -> Uuid -> int {
    (u: Uuid) => SentTerm(sts, g, u)
  }

  ghost function ReceivedTerms(sts: map<Uuid, Settlement>, g: Uuid): Uuid -> Uuid -> int {
    (u: Uuid) => ReceivedTerm(sts, g, u)
  }

  ghost function PaidBy(gts: map<Uuid, GroupTx>, g: Uuid): Uuid -> int {
    (u: Uuid) => Sum(gts.Keys, PaidTerm(gts, g, u))
  }

  ghost function OwedBy(gts: map<Uuid, GroupTx>, g: Uuid): Uuid -> int {
    (u: Uuid) => Sum(gts.Keys, OwedTerm(gts, g, u))
  }

  ghost function SentBy(sts: map<Uuid, Settlement>, g: Uuid): Uuid -> int {
    (u: Uuid) => Sum(sts.Keys, SentTerm(sts, g, u))
  }

  ghost function ReceivedBy(sts: map<Uuid, Settlement>, g: Uuid): Uuid -> int {
    (u: Uuid) => Sum(sts.Keys, ReceivedTerm(sts, g, u))
  }

  ghost function BalanceOf(gts: map<Uuid, GroupTx>, sts: map<Uuid, Settlement>, g: Uuid): Uuid -> int {
    (u: Uuid) => UserGroupBalance(gts, sts, g, u)
  }

  lemma EverythingPaidIsATotal(gts: map<Uuid, GroupTx>, g: Uuid, users: set<Uuid>)
    requires forall id :: LiveTx(gts, g, id) ==> gts[id].paidBy in users
    ensures Sum(users, PaidBy(gts, g)) == Sum(gts.Keys, TotalTerm(gts, g))
  {
    forall id | id in gts
      ensures TotalTerm(gts, g)(id) == Sum(users, Column(PaidTerms(gts, g), id))
    {
      if LiveTx(gts, g, id) {
        SumOne(users, Column(PaidTerms(gts, g), id), gts[id].paidBy);
      } else {
        SumZero(users, Column(PaidTerms(gts, g), id));
      }
    }
    SumSwap(users, gts.Keys, PaidTerms(gts, g), PaidBy(gts, g), TotalTerm(gts, g));
  }

  /** All that is owed is all that is split. */
  lemma EverythingOwedIsSplit(gts: map<Uuid, GroupTx>, g: Uuid, users: set<Uuid>)
    requires forall id :: LiveTx(gts, g, id) ==> gts[id].splits.Keys <= users
    ensures Sum(users, OwedBy(gts, g)) == Sum(gts.Keys, SplitTerm(gts, g))
  {
    forall id | id in gts
      ensures SplitTerm(gts, g)(id) == Sum(users, Column(OwedTerms(gts, g), id))
    {
      if LiveTx(gts, g, id) {
        SumAgree(users, Column(OwedTerms(gts, g), id), SplitAmounts(gts[id].splits));
        SumWiden(gts[id].splits.Keys, users, SplitAmounts(gts[id].splits));
      } else {
        SumZero(users, Column(OwedTerms(gts, g), id));
      }
    }
    SumSwap(users, gts.Keys, OwedTerms(gts, g), OwedBy(gts, g), SplitTerm(gts, g));
  }

  lemma EverythingSettledIsSent(sts: map<Uuid, Settlement>, g: Uuid, users: set<Uuid>)
    requires forall id :: LiveSettlement(sts, g, id) ==> sts[id].from in users
    ensures Sum(users, SentBy(sts, g)) == Sum(sts.Keys, AmountTerm(sts, g))
  {
    forall id | id in sts
      ensures AmountTerm(sts, g)(id) == Sum(users, Column(SentTerms(sts, g), id))
    {
      if LiveSettlement(sts, g, id) {
        SumOne(users, Column(SentTerms(sts, g), id), sts[id].from);
      } else {
        SumZero(users, Column(SentTerms(sts, g), id));
      }
    }
    SumSwap(users, sts.Keys, SentTerms(sts, g), SentBy(sts, g), AmountTerm(sts, g));
  }

  lemma EverythingSettledIsReceived(sts: map<Uuid, Settlement>, g: Uuid, users: set<Uuid>)
    requires forall id :: LiveSettlement(sts, g, id) ==> sts[id].to in users
    ensures Sum(users, ReceivedBy(sts, g)) == Sum(sts.Keys, AmountTerm(sts, g))
  {
    forall id | id in sts
      ensures AmountTerm(sts, g)(id) == Sum(users, Column(ReceivedTerms(sts, g), id))
    {
      if LiveSettlement(sts, g, id) {
        SumOne(users, Column(ReceivedTerms(sts, g), id), sts[id].to);
      } else {
        SumZero(users, Column(ReceivedTerms(sts, g), id));
      }
    }
    SumSwap(users, sts.Keys, ReceivedTerms(sts, g), ReceivedBy(sts, g), AmountTerm(sts, g));
  }

  /** The balances of everybody named in the group's live rows add up to what the splits of its live
      transactions leave of their totals. */
  lemma BalancesAddUp(gts: map<Uuid, GroupTx>, sts: map<Uuid, Settlement>, g: Uuid, users: set<Uuid>)
    requires NamesAll(gts, sts, g, users)
    ensures Sum(users, BalanceOf(gts, sts, g)) == Sum(gts.Keys, UnsplitTerm(gts, g))
  {
    hide Sum, PaidBy, OwedBy, SentBy, ReceivedBy, BalanceOf, TotalTerm, SplitTerm, UnsplitTerm;
    EverythingPaidIsATotal(gts, g, users);
    EverythingOwedIsSplit(gts, g, users);
    EverythingSettledIsSent(sts, g, users);
    EverythingSettledIsReceived(sts, g, users);
    BalancesAreFourSums(gts, sts, g, users);
    UnsplitIsTheRest(gts, g);
  }

  lemma BalancesAreFourSums(gts: map<Uuid, GroupTx>, sts: map<Uuid, Settlement>, g: Uuid, users: set<Uuid>)
    ensures Sum(users, BalanceOf(gts, sts, g)) ==
            Sum(users, PaidBy(gts, g)) - Sum(users, OwedBy(gts, g))
            + Sum(users, SentBy(sts, g)) - Sum(users, ReceivedBy(sts, g))
  {
    SumFour(users, PaidBy(gts, g), OwedBy(gts, g), SentBy(sts, g), ReceivedBy(sts, g), BalanceOf(gts, sts, g));
  }

  lemma UnsplitIsTheRest(gts: map<Uuid, GroupTx>, g: Uuid)
    ensures Sum(gts.Keys, UnsplitTerm(gts, g)) == Sum(gts.Keys, TotalTerm(gts, g)) - Sum(gts.Keys, SplitTerm(gts, g))
  {
    hide TotalTerm, SplitTerm;
    SumLinear(gts.Keys, TotalTerm(gts, g), SplitTerm(gts, g), UnsplitTerm(gts, g), -1);
  }

  /** So they cancel out when every live transaction is split in full. */
  lemma BalancesCancel(gts: map<Uuid, GroupTx>, sts: map<Uuid, Settlement>, g: Uuid, users: set<Uuid>)
    requires SplitInFull(gts, g) && NamesAll(gts, sts, g, users)
    ensures Sum(users, BalanceOf(gts, sts, g)) == 0
  {
    BalancesAddUp(gts, sts, g, users);
    hide SplitSum;
    forall id | id in gts
      ensures UnsplitTerm(gts, g)(id) == 0
    {
      assert TotalTerm(gts, g)(id) == SplitTerm(gts, g)(id);
    }
    SumZero(gts.Keys, UnsplitTerm(gts, g));
  }

  // ----- Net balance and pairwise debts -----

  lemma DebtsAreAntisymmetric(
    gts: map<Uuid, GroupTx>, sts: map<Uuid, Settlement>, g: Uuid, a: Uuid, b: Uuid, exclude: Option<Uuid>)
    ensures PairwiseDebt(gts, sts, g, a, b, exclude) == -PairwiseDebt(gts, sts, g, b, a, exclude)
  {
  }

  ghost function DebtTo(gts: map<Uuid, GroupTx>, sts: map<Uuid, Settlement>, g: Uuid, u: Uuid): Uuid -> int {
    (t: Uuid) => PairwiseDebt(gts, sts, g, t, u, None)
  }

  ghost function SharesIn(gts: map<Uuid, GroupTx>, g: Uuid, payer: Uuid): Uuid -> Uuid -> int {
    (t: Uuid) => ShareTerm(gts, g, t, payer)
  }

  ghost function SharesTo(gts: map<Uuid, GroupTx>, g: Uuid, debtor: Uuid): Uuid -> Uuid -> int {
    (t: Uuid) => ShareTerm(gts, g, debtor, t)
  }

  ghost function TransfersTo(sts: map<Uuid, Settlement>, g: Uuid, to: Uuid): Uuid -> Uuid -> int {
    (t: Uuid) => TransferTerm(sts, g, t, to, None)
  }

  ghost function TransfersFrom(sts: map<Uuid, Settlement>, g: Uuid, from: Uuid): Uuid -> Uuid -> int {
    (t: Uuid) => TransferTerm(sts, g, from, t, None)
  }

  ghost function SharesOf(gts: map<Uuid, GroupTx>, g: Uuid, payer: Uuid): Uuid -> int {
    (t: Uuid) => Sum(gts.Keys, ShareTerm(gts, g, t, payer))
  }

  ghost function OwedToEach(gts: map<Uuid, GroupTx>, g: Uuid, debtor: Uuid): Uuid -> int {
    (t: Uuid) => Sum(gts.Keys, ShareTerm(gts, g, debtor, t))
  }

  ghost function SentFromEach(sts: map<Uuid, Settlement>, g: Uuid, to: Uuid): Uuid -> int {
    (t: Uuid) => Transferred(sts, g, t, to, None)
  }

  ghost function SentToEach(sts: map<Uuid, Settlement>, g: Uuid, from: Uuid): Uuid -> int {
    (t: Uuid) => Transferred(sts, g, from, t, None)
  }

  /** The shares of everybody in what `u` paid add up to what `u` paid. */
  lemma SharesAddUpToPaid(gts: map<Uuid, GroupTx>, g: Uuid, users: set<Uuid>, u: Uuid)
    requires SplitInFull(gts, g)
    requires forall id :: LiveTx(gts, g, id) ==> gts[id].splits.Keys <= users
    ensures Sum(users, SharesOf(gts, g, u)) == Sum(gts.Keys, PaidTerm(gts, g, u))
  {
    forall id | id in gts
      ensures PaidTerm(gts, g, u)(id) == Sum(users, Column(SharesIn(gts, g, u), id))
    {
      if LiveTx(gts, g, id) && gts[id].paidBy == u {
        SumAgree(users, Column(SharesIn(gts, g, u), id), SplitAmounts(gts[id].splits));
        SumWiden(gts[id].splits.Keys, users, SplitAmounts(gts[id].splits));
      } else {
        SumZero(users, Column(SharesIn(gts, g, u), id));
      }
    }
    SumSwap(users, gts.Keys, SharesIn(gts, g, u), SharesOf(gts, g, u), PaidTerm(gts, g, u));
  }

  /** What `u` owes each payer adds up to what `u` owes. */
  lemma OwedToEachAddsUp(gts: map<Uuid, GroupTx>, g: Uuid, users: set<Uuid>, u: Uuid)
    requires forall id :: LiveTx(gts, g, id) ==> gts[id].paidBy in users
    ensures Sum(users, OwedToEach(gts, g, u)) == Sum(gts.Keys, OwedTerm(gts, g, u))
  {
    forall id | id in gts
      ensures OwedTerm(gts, g, u)(id) == Sum(users, Column(SharesTo(gts, g, u), id))
    {
      if LiveTx(gts, g, id) {
        SumOne(users, Column(SharesTo(gts, g, u), id), gts[id].paidBy);
      } else {
        SumZero(users, Column(SharesTo(gts, g, u), id));
      }
    }
    SumSwap(users, gts.Keys, SharesTo(gts, g, u), OwedToEach(gts, g, u), OwedTerm(gts, g, u));
  }

  lemma SentFromEachAddsUp(sts: map<Uuid, Settlement>, g: Uuid, users: set<Uuid>, u: Uuid)
    requires forall id :: LiveSettlement(sts, g, id) ==> sts[id].from in users
    ensures Sum(users, SentFromEach(sts, g, u)) == Sum(sts.Keys, ReceivedTerm(sts, g, u))
  {
    forall id | id in sts
      ensures ReceivedTerm(sts, g, u)(id) == Sum(users, Column(TransfersTo(sts, g, u), id))
    {
      if LiveSettlement(sts, g, id) {
        SumOne(users, Column(TransfersTo(sts, g, u), id), sts[id].from);
      } else {
        SumZero(users, Column(TransfersTo(sts, g, u), id));
      }
    }
    SumSwap(users, sts.Keys, TransfersTo(sts, g, u), SentFromEach(sts, g, u), ReceivedTerm(sts, g, u));
  }

  lemma SentToEachAddsUp(sts: map<Uuid, Settlement>, g: Uuid, users: set<Uuid>, u: Uuid)
    requires forall id :: LiveSettlement(sts, g, id) ==> sts[id].to in users
    ensures Sum(users, SentToEach(sts, g, u)) == Sum(sts.Keys, SentTerm(sts, g, u))
  {
    forall id | id in sts
      ensures SentTerm(sts, g, u)(id) == Sum(users, Column(TransfersFrom(sts, g, u), id))
    {
      if LiveSettlement(sts, g, id) {
        SumOne(users, Column(TransfersFrom(sts, g, u), id), sts[id].to);
      } else {
        SumZero(users, Column(TransfersFrom(sts, g, u), id));
      }
    }
    SumSwap(users, sts.Keys, TransfersFrom(sts, g, u), SentToEach(sts, g, u), SentTerm(sts, g, u));
  }

  lemma DebtsAddUp(gts: map<Uuid, GroupTx>, sts: map<Uuid, Settlement>, g: Uuid, users: set<Uuid>, u: Uuid)
    ensures Sum(users, DebtTo(gts, sts, g, u)) ==
            Sum(users, SharesOf(gts, g, u)) - Sum(users, OwedToEach(gts, g, u))
            + Sum(users, SentToEach(sts, g, u)) - Sum(users, SentFromEach(sts, g, u))
  {
    SumFour(users, SharesOf(gts, g, u), OwedToEach(gts, g, u), SentToEach(sts, g, u), SentFromEach(sts, g, u),
        DebtTo(gts, sts, g, u));
  }

  /** A user's net balance is what all the others owe the user, added up. */
  lemma NetIsPairwise(gts: map<Uuid, GroupTx>, sts: map<Uuid, Settlement>, g: Uuid, users: set<Uuid>, u: Uuid)
    requires SplitInFull(gts, g) && NamesAll(gts, sts, g, users)
    ensures UserGroupBalance(gts, sts, g, u) == Sum(users - {u}, DebtTo(gts, sts, g, u))
  {
    hide SplitInFull, Sum, SharesOf, OwedToEach, SentToEach, SentFromEach;
    SharesAddUpToPaid(gts, g, users, u);
    OwedToEachAddsUp(gts, g, users, u);
    SentFromEachAddsUp(sts, g, users, u);
    SentToEachAddsUp(sts, g, users, u);
    DebtsAddUp(gts, sts, g, users, u);
    assert DebtTo(gts, sts, g, u)(u) == 0;
    SumWiden(users - {u}, users, DebtTo(gts, sts, g, u));
  }
}
