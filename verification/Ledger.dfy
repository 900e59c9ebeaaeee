/** The tables behind groups, shared transactions, settlements and personal rows, and the two
    sums read from them. Columns hold whole cents; requests may be finer. */
module Ledger {
  import opened Wrappers
  import opened Sums

  type Uuid = int
  type Cents = int
  type Time = int

  /** An amount in a request: cents, and fractions of cents. */
  type Amount = real

  /** What a DECIMAL(12,2) column makes of it: half a cent goes away from zero. */
  function Rounded(a: Amount): Cents {
    if a < 0.0 then -(0.5 - a).Floor else (a + 0.5).Floor
  }

  /** CHECK (amount > 0), which looks at the rounded value. */
  predicate Storable(a: Amount) {
    Rounded(a) > 0
  }

  lemma WholeCents(c: Cents)
    ensures Rounded(c as real) == c
  {
  }

  /** It is the nearest cent, the next one up for half a cent; and a negative amount is rounded as its
      opposite. */
  lemma RoundedToNearest(a: Amount, c: Cents)
    requires a >= 0.0
    ensures Rounded(a) == c <==> c as real - 0.5 <= a < c as real + 0.5
    ensures Rounded(-a) == -Rounded(a)
  {
  }

  lemma RoundedBy(a: Amount)
    ensures -0.5 <= Rounded(a) as real - a <= 0.5
  {
  }

  datatype Details = Details(category: string, date: Time, description: Option<string>, notes: Option<string>)

  datatype Kind = Income | Expense

  /** A row of groups with its rows of group_members. */
  datatype Group = Group(createdBy: Uuid, members: set<Uuid>, isDeleted: bool, updatedAt: Time)

  /** A row of group_transaction_splits; its unique key (group_transaction_id, user_id) is the
      place it has in `GroupTx.splits`. */
  datatype Split = Split(id: Uuid, amount: Cents, txId: Option<Uuid>)

  /** A row of group_transactions with its splits, by user. */
  datatype GroupTx = GroupTx(
    group: Uuid,
    paidBy: Uuid,
    total: Cents,
    details: Details,
    isDeleted: bool,
    updatedAt: Time,
    splits: map<Uuid, Split>)

  /** A row of transactions: somebody's personal income or expense. */
  datatype Tx = Tx(
    user: Uuid,
    kind: Kind,
    amount: Cents,
    details: Details,
    groupTx: Option<Uuid>,
    settlement: Option<Uuid>,
    isDeleted: bool,
    updatedAt: Time)

  datatype Settlement = Settlement(
    group: Uuid,
    from: Uuid,
    to: Uuid,
    amount: Cents,
    notes: Option<string>,
    isDeleted: bool,
    updatedAt: Time)

  datatype Tables = Tables(
    currencies: map<Uuid, string>,
    groups: map<Uuid, Group>,
    groupTxs: map<Uuid, GroupTx>,
    txs: map<Uuid, Tx>,
    settlements: map<Uuid, Settlement>)

  // ----- Shared transactions of one group -----

  predicate LiveTx(gts: map<Uuid, GroupTx>, g: Uuid, id: Uuid) {
    id in gts && gts[id].group == g && !gts[id].isDeleted
  }

  predicate LiveSettlement(sts: map<Uuid, Settlement>, g: Uuid, id: Uuid) {
    id in sts && sts[id].group == g && !sts[id].isDeleted
  }

  function SplitAmounts(splits: map<Uuid, Split>): Uuid -> int {
    (u: Uuid) => if u in splits then splits[u].amount else 0
  }

  ghost function SplitSum(splits: map<Uuid, Split>): Cents {
    Sum(splits.Keys, SplitAmounts(splits))
  }

  // ----- The four sums of getUserGroupBalance -----

  function PaidTerm(gts: map<Uuid, GroupTx>, g: Uuid, u: Uuid): Uuid -> int {
    (id: Uuid) => if LiveTx(gts, g, id) && gts[id].paidBy == u then gts[id].total else 0
  }

  function OwedTerm(gts: map<Uuid, GroupTx>, g: Uuid, u: Uuid): Uuid -> int {
    (id: Uuid) => if LiveTx(gts, g, id) then SplitAmounts(gts[id].splits)(u) else 0
  }

  function SentTerm(sts: map<Uuid, Settlement>, g: Uuid, u: Uuid): Uuid -> int {
    (id: Uuid) => if LiveSettlement(sts, g, id) && sts[id].from == u then sts[id].amount else 0
  }

  function ReceivedTerm(sts: map<Uuid, Settlement>, g: Uuid, u: Uuid): Uuid -> int {
    (id: Uuid) => if LiveSettlement(sts, g, id) && sts[id].to == u then sts[id].amount else 0
  }

  /** Positive: the group owes `u`; negative: `u` owes the group. */
  ghost function UserGroupBalance(gts: map<Uuid, GroupTx>, sts: map<Uuid, Settlement>, g: Uuid, u: Uuid): Cents {
    Sum(gts.Keys, PaidTerm(gts, g, u)) - Sum(gts.Keys, OwedTerm(gts, g, u))
    + Sum(sts.Keys, SentTerm(sts, g, u)) - Sum(sts.Keys, ReceivedTerm(sts, g, u))
  }

  // ----- The four sums of pairwiseDebt -----

  /** `debtor`'s shares of what `payer` paid. */
  function ShareTerm(gts: map<Uuid, GroupTx>, g: Uuid, debtor: Uuid, payer: Uuid): Uuid -> int {
    (id: Uuid) => if LiveTx(gts, g, id) && gts[id].paidBy == payer then SplitAmounts(gts[id].splits)(debtor) else 0
  }

  function TransferTerm(sts: map<Uuid, Settlement>, g: Uuid, from: Uuid, to: Uuid, exclude: Option<Uuid>): Uuid -> int {
    (id: Uuid) =>
      if LiveSettlement(sts, g, id) && sts[id].from == from && sts[id].to == to && exclude != Some(id)
      then sts[id].amount else 0
  }

  ghost function Transferred(sts: map<Uuid, Settlement>, g: Uuid, from: Uuid, to: Uuid, exclude: Option<Uuid>): Cents {
    Sum(sts.Keys, TransferTerm(sts, g, from, to, exclude))
  }

  /** How much `from` owes `to`, leaving the settlement `exclude` out of account. */
  ghost function PairwiseDebt(
    gts: map<Uuid, GroupTx>, sts: map<Uuid, Settlement>, g: Uuid, from: Uuid, to: Uuid, exclude: Option<Uuid>): Cents
  {
    Sum(gts.Keys, ShareTerm(gts, g, from, to)) - Sum(gts.Keys, ShareTerm(gts, g, to, from))
    - Transferred(sts, g, from, to, exclude) + Transferred(sts, g, to, from, exclude)
  }
}
