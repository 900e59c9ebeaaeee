/** Reconciling the splits of one shared transaction, and its members' personal rows, with the
    splits a request asks for. */
module Splits {
  import opened Wrappers
  import opened Sums
  import opened Ledger

  datatype SplitInput = SplitInput(user: Uuid, amount: Amount)

  function Users(desired: seq<SplitInput>): set<Uuid> {
    set s | s in desired :: s.user
  }

  ghost predicate Distinct(desired: seq<SplitInput>) {
    forall i, j :: 0 <= i < j < |desired| ==> desired[i].user != desired[j].user
  }

  /** The last amount asked for `u`, as it is stored. */
  function AmountOf(desired: seq<SplitInput>, u: Uuid): Cents {
    if desired == [] then 0
    else
      var s := desired[|desired| - 1];
      if s.user == u then Rounded(s.amount) else AmountOf(desired[..|desired| - 1], u)
  }

  /** The sum a handler checks: of the amounts as they were sent. */
  function InputSum(desired: seq<SplitInput>): Amount {
    if desired == [] then 0.0 else InputSum(desired[..|desired| - 1]) + desired[|desired| - 1].amount
  }

  function Stored(): SplitInput -> int {
    (s: SplitInput) => Rounded(s.amount)
  }

  function StoredSum(desired: seq<SplitInput>): Cents {
    SeqSum(desired, Stored())
  }

  lemma OneMoreInput(desired: seq<SplitInput>, s: SplitInput)
    ensures InputSum(desired + [s]) == InputSum(desired) + s.amount
    ensures StoredSum(desired + [s]) == StoredSum(desired) + Rounded(s.amount)
  {
    assert (desired + [s])[..|desired|] == desired;
  }

  predicate AllStorable(desired: seq<SplitInput>) {
    forall s :: s in desired ==> Storable(s.amount)
  }

  // ----- The rows written -----

  function Written(tx: Tx, amount: Cents, details: Details, now: Time): Tx {
    tx.(amount := amount, details := details, isDeleted := false, updatedAt := now)
  }

  function NewRow(user: Uuid, amount: Cents, details: Details, gid: Uuid, now: Time): Tx {
    Tx(user, Expense, amount, details, Some(gid), None, false, now)
  }

  function Removed(tx: Tx, now: Time): Tx {
    if tx.isDeleted then tx else tx.(isDeleted := true, updatedAt := now)
  }

  predicate Linked(splits: map<Uuid, Split>, u: Uuid, p: Uuid) {
    u in splits && splits[u].txId == Some(p)
  }

  /** The foreign key of `txId`, and that it leads to the user's own row. */
  ghost predicate LinksOk(txs: map<Uuid, Tx>, gid: Uuid, splits: map<Uuid, Split>) {
    forall u, p :: Linked(splits, u, p) ==> p in txs && txs[p].user == u && txs[p].groupTx == Some(gid)
  }

  /** The first loop: users no longer wanted lose their split, and their row is soft-deleted. */
  function KeptSplits(splits: map<Uuid, Split>, keep: set<Uuid>): map<Uuid, Split> {
    map u | u in splits && u in keep :: splits[u]
  }

  ghost function KeptTxs(txs: map<Uuid, Tx>, splits: map<Uuid, Split>, keep: set<Uuid>, now: Time): map<Uuid, Tx> {
    map p | p in txs ::
      if exists u :: u in splits && u !in keep && Linked(splits, u, p) then Removed(txs[p], now) else txs[p]
  }

  /** The second loop: every user asked for has a split of that amount and a live row for it. */
  ghost predicate Applied(
    txs: map<Uuid, Tx>, splits: map<Uuid, Split>, gid: Uuid, desired: seq<SplitInput>, details: Details, now: Time,
    txs': map<Uuid, Tx>, splits': map<Uuid, Split>)
  {
    && splits'.Keys == splits.Keys + Users(desired)
    && (forall u :: u in Users(desired) ==>
          ServedBy(txs, splits, gid, u, AmountOf(desired, u), details, now, txs', splits'[u]))
    && (forall u :: u in splits && u !in Users(desired) ==> splits'[u] == splits[u])
    && RowsFramed(txs, splits, Users(desired), txs', splits')
  }

  /** Rows not linked to one of `us` are left alone. */
  ghost predicate RowsKept(txs: map<Uuid, Tx>, splits: map<Uuid, Split>, us: set<Uuid>, txs': map<Uuid, Tx>) {
    forall p :: p in txs ==> p in txs' && ((forall u :: u in us ==> !Linked(splits, u, p)) ==> txs'[p] == txs[p])
  }

  /** And new rows are linked to one of them. */
  ghost predicate RowsFramed(
    txs: map<Uuid, Tx>, splits: map<Uuid, Split>, us: set<Uuid>, txs': map<Uuid, Tx>, splits': map<Uuid, Split>)
  {
    && RowsKept(txs, splits, us, txs')
    && (forall p :: p in txs' && p !in txs ==> exists u :: u in us && Linked(splits', u, p))
  }

  ghost predicate ServedBy(
    txs: map<Uuid, Tx>, splits: map<Uuid, Split>, gid: Uuid, u: Uuid, amount: Cents, details: Details, now: Time,
    txs': map<Uuid, Tx>, split': Split)
  {
    && split'.amount == amount
    && split'.txId.Some?
    && var p := split'.txId.value;
       && p in txs'
       && (u in splits ==> split'.id == splits[u].id)
       && if u in splits && splits[u].txId.Some?
          then p == splits[u].txId.value && p in txs && txs'[p] == Written(txs[p], amount, details, now)
          else p !in txs && txs'[p] == NewRow(u, amount, details, gid, now)
  }

  // ----- Requests that may name a user twice -----

  predicate HasRow(splits: map<Uuid, Split>, u: Uuid) {
    u in splits && splits[u].txId.Some?
  }

  ghost predicate Injective(made: map<nat, Uuid>) {
    forall i, j :: i in made && j in made && made[i] == made[j] ==> i == j
  }

  lemma InjectiveOneMore(made: map<nat, Uuid>, n: nat, p: Uuid)
    requires Injective(made) && n !in made && forall i :: i in made ==> made[i] != p
    ensures Injective(made[n := p])
  {
  }

  /** `made` gives each request for a user without a row a new row of its own, and there is no other
      new row. */
  ghost predicate RowsMade(
    made: map<nat, Uuid>, txs: map<Uuid, Tx>, splits: map<Uuid, Split>, gid: Uuid, desired: seq<SplitInput>,
    details: Details, now: Time, txs': map<Uuid, Tx>)
  {
    && (forall i: nat :: i in made <==> i < |desired| && !HasRow(splits, desired[i].user))
    && Injective(made)
    && (forall i :: i in made ==>
          && made[i] !in txs && made[i] in txs'
          && txs'[made[i]] == NewRow(desired[i].user, Rounded(desired[i].amount), details, gid, now))
    && (forall p :: p in txs' && p !in txs ==> exists i :: i in made && made[i] == p)
  }

  /** The second loop for any request: of the amounts for one user the last one stands. */
  ghost predicate AllServed(
    txs: map<Uuid, Tx>, splits: map<Uuid, Split>, gid: Uuid, desired: seq<SplitInput>, details: Details, now: Time,
    txs': map<Uuid, Tx>, splits': map<Uuid, Split>)
  {
    && splits'.Keys == splits.Keys + Users(desired)
    && (forall u :: u in Users(desired) ==>
          ServedBy(txs, splits, gid, u, AmountOf(desired, u), details, now, txs', splits'[u]))
    && (forall u :: u in splits && u !in Users(desired) ==> splits'[u] == splits[u])
    && RowsKept(txs, splits, Users(desired), txs')
    && (exists made: map<nat, Uuid> :: RowsMade(made, txs, splits, gid, desired, details, now, txs'))
  }

  /** Both loops for any request. */
  ghost predicate Served(
    txs: map<Uuid, Tx>, splits: map<Uuid, Split>, gid: Uuid, desired: seq<SplitInput>, details: Details, now: Time,
    txs': map<Uuid, Tx>, splits': map<Uuid, Split>)
  {
    AllServed(
      KeptTxs(txs, splits, Users(desired), now), KeptSplits(splits, Users(desired)),
      gid, desired, details, now, txs', splits')
  }

  /** The whole reconciliation, for a request with distinct users. */
  ghost predicate Reconciled(
    txs: map<Uuid, Tx>, splits: map<Uuid, Split>, gid: Uuid, desired: seq<SplitInput>, details: Details, now: Time,
    txs': map<Uuid, Tx>, splits': map<Uuid, Split>)
  {
    Applied(
      KeptTxs(txs, splits, Users(desired), now), KeptSplits(splits, Users(desired)),
      gid, desired, details, now, txs', splits')
  }

  /** Of the users named twice each has a row already. */
  predicate OrphanFree(desired: seq<SplitInput>, splits: map<Uuid, Split>) {
    forall i, j :: 0 <= i < j < |desired| && desired[i].user == desired[j].user ==> HasRow(splits, desired[i].user)
  }

  /** Then every new row is the row of a split. */
  lemma MadeRowServes(
    made: map<nat, Uuid>, txs: map<Uuid, Tx>, splits: map<Uuid, Split>, gid: Uuid, desired: seq<SplitInput>,
    details: Details, now: Time, txs': map<Uuid, Tx>, i: nat, amount: Cents, split': Split)
    requires RowsMade(made, txs, splits, gid, desired, details, now, txs') && OrphanFree(desired, splits) && i in made
    requires ServedBy(txs, splits, gid, desired[i].user, amount, details, now, txs', split')
    ensures split'.txId == Some(made[i])
  {
    var j :| j in made && made[j] == split'.txId.value;
    assert desired[j].user == desired[i].user;
  }

  lemma MadeFor(
    made: map<nat, Uuid>, txs: map<Uuid, Tx>, splits: map<Uuid, Split>, gid: Uuid, desired: seq<SplitInput>,
    details: Details, now: Time, txs': map<Uuid, Tx>, p: Uuid) returns (i: nat)
    requires RowsMade(made, txs, splits, gid, desired, details, now, txs') && p in txs' && p !in txs
    ensures i in made && made[i] == p && i < |desired| && desired[i].user in Users(desired)
  {
    i :| i in made && made[i] == p;
  }

  lemma ServedIsApplied(
    txs: map<Uuid, Tx>, splits: map<Uuid, Split>, gid: Uuid, desired: seq<SplitInput>, details: Details, now: Time,
    txs': map<Uuid, Tx>, splits': map<Uuid, Split>)
    requires AllServed(txs, splits, gid, desired, details, now, txs', splits') && OrphanFree(desired, splits)
    ensures Applied(txs, splits, gid, desired, details, now, txs', splits')
  {
    hide AmountOf, ServedBy, OrphanFree, Users, RowsMade;
    var made: map<nat, Uuid> :| RowsMade(made, txs, splits, gid, desired, details, now, txs');
    forall p | p in txs' && p !in txs
      ensures exists u :: u in Users(desired) && Linked(splits', u, p)
    {
      var i := MadeFor(made, txs, splits, gid, desired, details, now, txs', p);
      var u := desired[i].user;
      MadeRowServes(made, txs, splits, gid, desired, details, now, txs', i, AmountOf(desired, u), splits'[u]);
      assert Linked(splits', u, p);
    }
  }

  lemma ServedIsReconciled(
    txs: map<Uuid, Tx>, splits: map<Uuid, Split>, gid: Uuid, desired: seq<SplitInput>, details: Details, now: Time,
    txs': map<Uuid, Tx>, splits': map<Uuid, Split>)
    requires Served(txs, splits, gid, desired, details, now, txs', splits') && OrphanFree(desired, splits)
    ensures Reconciled(txs, splits, gid, desired, details, now, txs', splits')
  {
    var rest := KeptSplits(splits, Users(desired));
    assert OrphanFree(desired, rest) by {
      assert forall i :: 0 <= i < |desired| ==> desired[i].user in Users(desired);
    }
    hide AllServed, Applied, OrphanFree;
    ServedIsApplied(
      KeptTxs(txs, splits, Users(desired), now), rest, gid, desired, details, now, txs', splits');
  }

  /** A user without a row who is named twice gets two, and at most one of them is linked. */
  lemma OrphanRow(
    txs: map<Uuid, Tx>, splits: map<Uuid, Split>, gid: Uuid, desired: seq<SplitInput>, details: Details, now: Time,
    txs': map<Uuid, Tx>, splits': map<Uuid, Split>) returns (p: Uuid)
    requires Served(txs, splits, gid, desired, details, now, txs', splits') && !OrphanFree(desired, splits)
    ensures p in txs' && txs'[p].groupTx == Some(gid) && !txs'[p].isDeleted && !Linked(splits', txs'[p].user, p)
  {
    var i, j :| 0 <= i < j < |desired| && desired[i].user == desired[j].user && !HasRow(splits, desired[i].user);
    var kept, rest := KeptTxs(txs, splits, Users(desired), now), KeptSplits(splits, Users(desired));
    hide Users, ServedBy, RowsKept;
    var made: map<nat, Uuid> :| RowsMade(made, kept, rest, gid, desired, details, now, txs');
    assert i in made && j in made;
    p := if Linked(splits', desired[i].user, made[i]) then made[j] else made[i];
  }

  // ----- Amounts -----

  ghost function AmountIn(desired: seq<SplitInput>): Uuid -> int {
    (u: Uuid) => AmountOf(desired, u)
  }

  lemma {:induction false} AmountIsAsked(desired: seq<SplitInput>, u: Uuid)
    requires u in Users(desired)
    ensures exists s :: s in desired && s.user == u && AmountOf(desired, u) == Rounded(s.amount)
  {
    var n := |desired| - 1;
    assert desired == desired[..n] + [desired[n]];
    if desired[n].user != u {
      AmountIsAsked(desired[..n], u);
      var s :| s in desired[..n] && s.user == u && AmountOf(desired[..n], u) == Rounded(s.amount);
      assert s in desired;
    } else {
      assert desired[n] in desired;
    }
  }

  /** The amounts by user add up to the stored ones when the users are distinct, and fall short
      otherwise. */
  lemma {:induction false} DistinctAddsUp(desired: seq<SplitInput>)
    requires AllStorable(desired)
    ensures Distinct(desired) ==> Sum(Users(desired), AmountIn(desired)) == StoredSum(desired)
    ensures !Distinct(desired) ==> Sum(Users(desired), AmountIn(desired)) < StoredSum(desired)
  {
    if desired != [] {
      var n := |desired| - 1;
      var less, s := desired[..n], desired[n];
      assert desired == less + [s];
      DistinctAddsUp(less);
      DistinctOneMore(desired);
      LastAmountStands(desired);
      hide Distinct, Users, Sum, AmountIn, AmountOf, Rounded;
      if s.user in Users(less) {
        AmountIsAsked(less, s.user);
      }
    }
  }

  lemma DistinctOneMore(desired: seq<SplitInput>)
    requires desired != []
    ensures var n := |desired| - 1;
            Distinct(desired) <==> Distinct(desired[..n]) && desired[n].user !in Users(desired[..n])
  {
    var n := |desired| - 1;
    if u :| u in Users(desired[..n]) && u == desired[n].user {
      var i :| 0 <= i < n && desired[..n][i].user == u;
      assert desired[i].user == desired[n].user;
    } else {
      assert forall i :: 0 <= i < n ==> desired[i] == desired[..n][i] && desired[i].user in Users(desired[..n]);
    }
  }

  /** One more request adds its amount, and takes an earlier one of the same user away. */
  lemma LastAmountStands(desired: seq<SplitInput>)
    requires desired != []
    ensures var n := |desired| - 1;
            var less, s := desired[..n], desired[n];
            Sum(Users(desired), AmountIn(desired)) ==
            Sum(Users(less), AmountIn(less)) + Rounded(s.amount)
            - if s.user in Users(less) then AmountOf(less, s.user) else 0
  {
    var n := |desired| - 1;
    var less, s := desired[..n], desired[n];
    assert desired == less + [s];
    assert Users(desired) == Users(less) + {s.user};
    var others := Users(less) - {s.user};
    hide Users, Rounded;
    SumAgree(others, AmountIn(desired), AmountIn(less));
    SumTake(Users(desired), AmountIn(desired), s.user);
    assert Users(desired) - {s.user} == others;
    if s.user in Users(less) {
      SumTake(Users(less), AmountIn(less), s.user);
    } else {
      assert others == Users(less);
    }
  }

  /** The splits afterwards sum to the amounts by user. */
  lemma AppliedSum(splits: map<Uuid, Split>, desired: seq<SplitInput>)
    requires splits.Keys == Users(desired) && forall u :: u in splits ==> splits[u].amount == AmountOf(desired, u)
    ensures SplitSum(splits) == Sum(Users(desired), AmountIn(desired))
  {
    SumAgree(splits.Keys, SplitAmounts(splits), AmountIn(desired));
  }

  // ----- When a request lands on its total -----

  /** What is stored of the request adds up to what is stored of its total, and leaves no row without
      its split. */
  ghost predicate Lands(splits: map<Uuid, Split>, desired: seq<SplitInput>, total: Cents) {
    Sum(Users(desired), AmountIn(desired)) == total && OrphanFree(desired, splits)
  }

  /** With distinct users that is: the rounded amounts add up to the rounded total. */
  lemma DistinctLandsIff(splits: map<Uuid, Split>, desired: seq<SplitInput>, total: Cents)
    requires Distinct(desired) && AllStorable(desired)
    ensures Lands(splits, desired, total) <==> StoredSum(desired) == total
  {
    DistinctAddsUp(desired);
  }

  predicate InWholeCents(desired: seq<SplitInput>) {
    forall s :: s in desired ==> Rounded(s.amount) as real == s.amount
  }

  lemma {:induction false} WholeCentsAddUp(desired: seq<SplitInput>)
    requires InWholeCents(desired)
    ensures StoredSum(desired) as real == InputSum(desired)
  {
    if desired != [] {
      var n := |desired| - 1;
      assert desired == desired[..n] + [desired[n]];
      hide Rounded;
      WholeCentsAddUp(desired[..n]);
    }
  }

  /** In whole cents, for a request that adds up, it is: the users are distinct. */
  lemma WholeCentsLandIff(splits: map<Uuid, Split>, desired: seq<SplitInput>, total: Cents)
    requires InWholeCents(desired) && AllStorable(desired) && InputSum(desired) == total as real
    ensures Lands(splits, desired, total) <==> Distinct(desired)
  {
    WholeCentsAddUp(desired);
    DistinctAddsUp(desired);
    hide Sum, Users, StoredSum, InputSum, Rounded;
  }

  /** Rounding loses or gains at most half a cent a split. */
  lemma {:induction false} DriftIsBounded(desired: seq<SplitInput>)
    ensures var drift := StoredSum(desired) as real - InputSum(desired);
            -(|desired| as real) <= 2.0 * drift <= |desired| as real
  {
    if desired != [] {
      DriftIsBounded(desired[..|desired| - 1]);
      RoundedBy(desired[|desired| - 1].amount);
      hide Rounded;
    }
  }

  // ----- What reconciliation keeps -----

  /** The exact splits, with the ids and links that survive. */
  lemma ReconciledSplits(
    txs: map<Uuid, Tx>, splits: map<Uuid, Split>, gid: Uuid, desired: seq<SplitInput>, details: Details, now: Time,
    txs': map<Uuid, Tx>, splits': map<Uuid, Split>)
    requires Reconciled(txs, splits, gid, desired, details, now, txs', splits')
    ensures splits'.Keys == Users(desired)
    ensures forall u :: u in splits' ==> splits'[u].amount == AmountOf(desired, u)
    ensures forall u :: u in splits' && u in splits ==> splits'[u].id == splits[u].id
    ensures forall u, p :: u in splits' && Linked(splits, u, p) ==> Linked(splits', u, p)
  {
    hide KeptTxs, Users, AmountOf, RowsFramed;
    var kept, rest := KeptTxs(txs, splits, Users(desired), now), KeptSplits(splits, Users(desired));
    assert rest.Keys <= Users(desired);
    forall u | u in Users(desired)
      ensures splits'[u].amount == AmountOf(desired, u)
      ensures u in splits ==> splits'[u].id == splits[u].id
      ensures HasRow(splits, u) ==> splits'[u].txId == splits[u].txId
    {
      assert ServedBy(kept, rest, gid, u, AmountOf(desired, u), details, now, txs', splits'[u]);
    }
    hide ServedBy, Reconciled;
  }

  /** The rows of users no longer in the splits are soft-deleted. */
  lemma ReconciledRemoves(
    txs: map<Uuid, Tx>, splits: map<Uuid, Split>, gid: Uuid, desired: seq<SplitInput>, details: Details, now: Time,
    txs': map<Uuid, Tx>, splits': map<Uuid, Split>, u: Uuid, p: Uuid)
    requires LinksOk(txs, gid, splits) && Reconciled(txs, splits, gid, desired, details, now, txs', splits')
    requires u !in Users(desired) && Linked(splits, u, p)
    ensures p in txs' && txs'[p] == Removed(txs[p], now)
  {
    hide ServedBy, AmountOf;
    var kept, rest := KeptTxs(txs, splits, Users(desired), now), KeptSplits(splits, Users(desired));
    assert kept[p] == Removed(txs[p], now);
    forall v | v in Users(desired)
      ensures !Linked(rest, v, p)
    {
      assert Linked(rest, v, p) ==> Linked(splits, v, p);
    }
  }

  /** Rows of other shared transactions are untouched, and new rows are of this one. */
  lemma ReconciledElsewhere(
    txs: map<Uuid, Tx>, splits: map<Uuid, Split>, gid: Uuid, desired: seq<SplitInput>, details: Details, now: Time,
    txs': map<Uuid, Tx>, splits': map<Uuid, Split>)
    requires LinksOk(txs, gid, splits) && Reconciled(txs, splits, gid, desired, details, now, txs', splits')
    ensures forall p :: p in txs && txs[p].groupTx != Some(gid) ==> p in txs' && txs'[p] == txs[p]
    ensures forall p :: p in txs' && p !in txs ==> txs'[p].groupTx == Some(gid)
  {
    hide AmountOf, Users;
    var kept, rest := KeptTxs(txs, splits, Users(desired), now), KeptSplits(splits, Users(desired));
    forall p | p in txs && txs[p].groupTx != Some(gid)
      ensures p in txs' && txs'[p] == txs[p]
    {
      forall v
        ensures !Linked(splits, v, p) && !Linked(rest, v, p)
      {
        assert Linked(rest, v, p) ==> Linked(splits, v, p);
      }
      assert kept[p] == txs[p];
    }
    forall p | p in txs' && p !in txs
      ensures txs'[p].groupTx == Some(gid)
    {
      var u :| u in Users(desired) && Linked(splits', u, p);
      assert ServedBy(kept, rest, gid, u, AmountOf(desired, u), details, now, txs', splits'[u]);
    }
  }

  /** Everything a caller relies on: the exact splits, the ids that survive, the rows removed,
      and every other row untouched. */
  lemma ReconciledKeeps(
    txs: map<Uuid, Tx>, splits: map<Uuid, Split>, gid: Uuid, desired: seq<SplitInput>, details: Details, now: Time,
    txs': map<Uuid, Tx>, splits': map<Uuid, Split>)
    requires LinksOk(txs, gid, splits)
    requires Reconciled(txs, splits, gid, desired, details, now, txs', splits')
    ensures splits'.Keys == Users(desired)
    ensures forall u :: u in splits' ==> splits'[u].amount == AmountOf(desired, u)
    ensures forall u :: u in splits' && u in splits ==> splits'[u].id == splits[u].id
    ensures forall u, p :: u in splits' && Linked(splits, u, p) ==> Linked(splits', u, p)
    ensures forall u, p :: u !in splits' && Linked(splits, u, p) ==> p in txs' && txs'[p] == Removed(txs[p], now)
    ensures forall p :: p in txs && txs[p].groupTx != Some(gid) ==> p in txs' && txs'[p] == txs[p]
    ensures forall p :: p in txs' && p !in txs ==> txs'[p].groupTx == Some(gid)
  {
    ReconciledSplits(txs, splits, gid, desired, details, now, txs', splits');
    ReconciledElsewhere(txs, splits, gid, desired, details, now, txs', splits');
    forall u, p | u !in splits' && Linked(splits, u, p)
      ensures p in txs && p in txs' && txs'[p] == Removed(txs[p], now)
    {
      ReconciledRemoves(txs, splits, gid, desired, details, now, txs', splits', u, p);
    }
    hide Reconciled, LinksOk, Linked, Removed;
  }

  function Untimed(tx: Tx): Tx {
    tx.(updatedAt := 0)
  }

  /** A split afterwards has the user's own live row of the same amount: a new one is an expense, and one
      that was there before keeps its kind. */
  lemma SplitIsMirrored(
    txs: map<Uuid, Tx>, splits: map<Uuid, Split>, gid: Uuid, desired: seq<SplitInput>, details: Details, now: Time,
    txs': map<Uuid, Tx>, splits': map<Uuid, Split>, u: Uuid)
    requires LinksOk(txs, gid, splits) && u in Users(desired)
    requires Reconciled(txs, splits, gid, desired, details, now, txs', splits')
    ensures splits'[u].txId.Some? && splits'[u].txId.value in txs'
    ensures var tx := txs'[splits'[u].txId.value];
            tx.user == u && tx.groupTx == Some(gid) && !tx.isDeleted && tx.amount == splits'[u].amount
            && tx.details == details
    ensures var p := splits'[u].txId.value;
            if p in txs then txs'[p].kind == txs[p].kind else txs'[p].kind == Expense && txs'[p].settlement.None?
    ensures splits'[u].amount == AmountOf(desired, u)
  {
    var kept, rest := KeptTxs(txs, splits, Users(desired), now), KeptSplits(splits, Users(desired));
    assert ServedBy(kept, rest, gid, u, AmountOf(desired, u), details, now, txs', splits'[u]);
    var p := splits'[u].txId.value;
    if u in rest && rest[u].txId.Some? {
      assert Linked(splits, u, p);
    }
  }

  /** And there is no other live row of the shared transaction, unless there was one before. */
  lemma LiveRowsAreLinked(
    txs: map<Uuid, Tx>, splits: map<Uuid, Split>, gid: Uuid, desired: seq<SplitInput>, details: Details, now: Time,
    txs': map<Uuid, Tx>, splits': map<Uuid, Split>, p: Uuid)
    requires LinksOk(txs, gid, splits)
    requires Reconciled(txs, splits, gid, desired, details, now, txs', splits')
    requires p in txs' && txs'[p].groupTx == Some(gid) && !txs'[p].isDeleted
    ensures Linked(splits', txs'[p].user, p)
            || (p in txs && txs'[p] == txs[p] && forall u :: !Linked(splits, u, p))
  {
    var keep := Users(desired);
    var kept, rest := KeptTxs(txs, splits, keep, now), KeptSplits(splits, keep);
    hide AmountOf;
    if p !in txs {
      var u :| u in keep && Linked(splits', u, p);
      SplitIsMirrored(txs, splits, gid, desired, details, now, txs', splits', u);
    } else if u :| u in keep && Linked(splits, u, p) {
      assert ServedBy(kept, rest, gid, u, AmountOf(desired, u), details, now, txs', splits'[u]);
      assert Linked(splits', u, p);
      SplitIsMirrored(txs, splits, gid, desired, details, now, txs', splits', u);
    } else {
      assert forall v :: v in keep ==> !Linked(rest, v, p);
      assert txs'[p] == kept[p];
    }
  }

  /** A request that is already in place leaves the splits, and writes each linked row as it is. */
  lemma SettledRequest(
    txs: map<Uuid, Tx>, splits: map<Uuid, Split>, gid: Uuid, desired: seq<SplitInput>, details: Details, now: Time,
    txs': map<Uuid, Tx>, splits': map<Uuid, Split>)
    requires splits.Keys == Users(desired)
    requires forall u :: u in splits ==>
               && splits[u].amount == AmountOf(desired, u) && splits[u].txId.Some? && splits[u].txId.value in txs
               && Untimed(Written(txs[splits[u].txId.value], AmountOf(desired, u), details, now)) ==
                   Untimed(txs[splits[u].txId.value])
    requires Applied(txs, splits, gid, desired, details, now, txs', splits')
    ensures splits' == splits
    ensures txs'.Keys == txs.Keys
    ensures forall p :: p in txs ==> Untimed(txs'[p]) == Untimed(txs[p])
  {
    forall u | u in splits
      ensures splits'[u] == splits[u]
      ensures var p := splits[u].txId.value; p in txs' && Untimed(txs'[p]) == Untimed(txs[p])
    {
      assert ServedBy(txs, splits, gid, u, AmountOf(desired, u), details, now, txs', splits'[u]);
    }
    assert forall u, p :: Linked(splits', u, p) ==> p in txs;
    assert forall p :: p in txs' <==> p in txs;
  }

  lemma NothingToTrim(txs: map<Uuid, Tx>, splits: map<Uuid, Split>, keep: set<Uuid>, now: Time)
    requires splits.Keys <= keep
    ensures KeptSplits(splits, keep) == splits && KeptTxs(txs, splits, keep, now) == txs
  {
  }

  /** Asking for the same splits again changes timestamps only. */
  lemma ReconcilingTwice(
    txs: map<Uuid, Tx>, splits: map<Uuid, Split>, gid: Uuid, desired: seq<SplitInput>, details: Details,
    now: Time, txs': map<Uuid, Tx>, splits': map<Uuid, Split>,
    later: Time, txs'': map<Uuid, Tx>, splits'': map<Uuid, Split>)
    requires LinksOk(txs, gid, splits)
    requires Reconciled(txs, splits, gid, desired, details, now, txs', splits')
    requires Reconciled(txs', splits', gid, desired, details, later, txs'', splits'')
    ensures splits'' == splits'
    ensures txs''.Keys == txs'.Keys
    ensures forall p :: p in txs' ==> Untimed(txs''[p]) == Untimed(txs'[p])
  {
    assert splits'.Keys == Users(desired);
    NothingToTrim(txs', splits', Users(desired), later);
    assert Applied(txs', splits', gid, desired, details, later, txs'', splits'');
    hide Reconciled, Applied, LinksOk;
    forall u | u in Users(desired)
      ensures splits'[u].txId.Some? && splits'[u].txId.value in txs' && splits'[u].amount == AmountOf(desired, u)
      ensures var tx := txs'[splits'[u].txId.value];
              Untimed(Written(tx, AmountOf(desired, u), details, later)) == Untimed(tx)
    {
      SplitIsMirrored(txs, splits, gid, desired, details, now, txs', splits', u);
    }
    SettledRequest(txs', splits', gid, desired, details, later, txs'', splits'');
  }
}
