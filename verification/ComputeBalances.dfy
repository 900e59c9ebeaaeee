/** The one-pass balance of a group, and its agreement with the four SQL sums. */
module ComputeBalances {
  import opened Wrappers
  import opened Sums
  import opened Ledger

  /** A payer's total or a user's split, as the balance query returns them. */
  datatype Entry = Entry(user: Uuid, amount: Cents)

  datatype Transfer = Transfer(from: Uuid, to: Uuid, amount: Cents)

  datatype Balance = Balance(user: Uuid, amount: Cents)

  function ShareOf(u: Uuid): Entry -> int {
    (e: Entry) => if e.user == u then e.amount else 0
  }

  function EffectOn(u: Uuid): Transfer -> int {
    (t: Transfer) => (if t.from == u then t.amount else 0) - if t.to == u then t.amount else 0
  }

  /** What `u` paid, less the splits, plus what `u` sent, less what `u` received. */
  function Net(u: Uuid, payers: seq<Entry>, splits: seq<Entry>, transfers: seq<Transfer>): Cents {
    SeqSum(payers, ShareOf(u)) - SeqSum(splits, ShareOf(u)) + SeqSum(transfers, EffectOn(u))
  }

  ghost predicate Accumulated(
    bal: map<Uuid, Cents>, members: seq<Uuid>, payers: seq<Entry>, splits: seq<Entry>, transfers: seq<Transfer>)
  {
    && (forall u :: u in bal <==> u in members)
    && forall u :: u in bal ==> bal[u] == Net(u, payers, splits, transfers)
  }

  lemma OneMorePayer(payers: seq<Entry>, i: nat)
    requires i < |payers|
    ensures forall u :: Net(u, payers[..i + 1], [], []) == Net(u, payers[..i], [], []) + ShareOf(u)(payers[i])
  {
    assert payers[..i + 1][..i] == payers[..i];
  }

  lemma OneMoreSplit(payers: seq<Entry>, splits: seq<Entry>, i: nat)
    requires i < |splits|
    ensures forall u :: Net(u, payers, splits[..i + 1], []) == Net(u, payers, splits[..i], []) - ShareOf(u)(splits[i])
  {
    assert splits[..i + 1][..i] == splits[..i];
  }

  lemma OneMoreTransfer(payers: seq<Entry>, splits: seq<Entry>, transfers: seq<Transfer>, i: nat)
    requires i < |transfers|
    ensures forall u ::
              Net(u, payers, splits, transfers[..i + 1]) ==
              Net(u, payers, splits, transfers[..i]) + EffectOn(u)(transfers[i])
  {
    assert transfers[..i + 1][..i] == transfers[..i];
  }

  /** One balance per member, in some order, and none for anybody else. */
  method ComputeBalances(members: seq<Uuid>, payers: seq<Entry>, splits: seq<Entry>, transfers: seq<Transfer>)
    returns (balances: seq<Balance>)
    ensures forall b :: b in balances ==> b.user in members && b.amount == Net(b.user, payers, splits, transfers)
    ensures forall m :: m in members ==> Balance(m, Net(m, payers, splits, transfers)) in balances
    ensures forall i, j :: 0 <= i < j < |balances| ==> balances[i].user != balances[j].user
  {
    var bal: map<Uuid, Cents> := map[];
    for i := 0 to |members|
      invariant Accumulated(bal, members[..i], [], [], [])
    {
      bal := bal[members[i] := 0];
    }
    hide Net;
    for i := 0 to |payers|
      invariant Accumulated(bal, members, payers[..i], [], [])
    {
      OneMorePayer(payers, i);
      var p := payers[i];
      if p.user in bal {
        bal := bal[p.user := bal[p.user] + p.amount];
      }
    }
    assert payers[..|payers|] == payers;
    for i := 0 to |splits|
      invariant Accumulated(bal, members, payers, splits[..i], [])
    {
      OneMoreSplit(payers, splits, i);
      var s := splits[i];
      if s.user in bal {
        bal := bal[s.user := bal[s.user] - s.amount];
      }
    }
    assert splits[..|splits|] == splits;
    for i := 0 to |transfers|
      invariant Accumulated(bal, members, payers, splits, transfers[..i])
    {
      OneMoreTransfer(payers, splits, transfers, i);
      var t := transfers[i];
      if t.from in bal {
        bal := bal[t.from := bal[t.from] + t.amount];
      }
      if t.to in bal {
        bal := bal[t.to := bal[t.to] - t.amount];
      }
    }
    assert transfers[..|transfers|] == transfers;
    balances := ListBalances(bal);
  }

  /** The closing loop over the map, whose order Go leaves open. */
  method ListBalances(bal: map<Uuid, Cents>) returns (balances: seq<Balance>)
    ensures forall b :: b in balances ==> b.user in bal && b.amount == bal[b.user]
    ensures forall u :: u in bal ==> Balance(u, bal[u]) in balances
    ensures forall i, j :: 0 <= i < j < |balances| ==> balances[i].user != balances[j].user
  {
    balances := [];
    var left := bal.Keys;
    while left != {}
      invariant left <= bal.Keys
      invariant forall b :: b in balances ==> b.user in bal && b.user !in left && b.amount == bal[b.user]
      invariant forall u :: u in bal && u !in left ==> Balance(u, bal[u]) in balances
      invariant forall i, j :: 0 <= i < j < |balances| ==> balances[i].user != balances[j].user
    {
      var u := Pick(left);
      balances := balances + [Balance(u, bal[u])];
      left := left - {u};
    }
  }

  /** The order of the rows does not matter. */
  lemma NetIgnoresOrder(
    u: Uuid, ps: seq<Entry>, qs: seq<Entry>, ss: seq<Entry>, rs: seq<Entry>, ts: seq<Transfer>, us: seq<Transfer>)
    requires multiset(ps) == multiset(qs) && multiset(ss) == multiset(rs) && multiset(ts) == multiset(us)
    ensures Net(u, ps, ss, ts) == Net(u, qs, rs, us)
  {
    SeqSumPermutes(ps, qs, ShareOf(u));
    SeqSumPermutes(ss, rs, ShareOf(u));
    SeqSumPermutes(ts, us, EffectOn(u));
  }

  // ----- Agreement with the SQL sums -----

  ghost function LiveTxs(gts: map<Uuid, GroupTx>, g: Uuid): set<Uuid> {
    set id | id in gts && LiveTx(gts, g, id)
  }

  ghost function LiveSettlements(sts: map<Uuid, Settlement>, g: Uuid): set<Uuid> {
    set id | id in sts && LiveSettlement(sts, g, id)
  }

  ghost function LiveSplits(gts: map<Uuid, GroupTx>, g: Uuid): set<(Uuid, Uuid)> {
    set id, u | id in gts && LiveTx(gts, g, id) && u in gts[id].splits :: (id, u)
  }

  /** `payers` is the 'payer' part of the balance query, its rows in the order `ids`. */
  ghost predicate PayerRows(payers: seq<Entry>, ids: seq<Uuid>, gts: map<Uuid, GroupTx>, g: Uuid) {
    && Listed(ids, LiveTxs(gts, g)) && |payers| == |ids|
    && forall i :: 0 <= i < |ids| ==>
      ids[i] in LiveTxs(gts, g) && payers[i] == Entry(gts[ids[i]].paidBy, gts[ids[i]].total)
  }

  ghost predicate SplitRows(splits: seq<Entry>, ids: seq<(Uuid, Uuid)>, gts: map<Uuid, GroupTx>, g: Uuid) {
    && Listed(ids, LiveSplits(gts, g)) && |splits| == |ids|
    && forall i :: 0 <= i < |ids| ==>
      ids[i] in LiveSplits(gts, g) && splits[i] == Entry(ids[i].1, gts[ids[i].0].splits[ids[i].1].amount)
  }

  ghost predicate TransferRows(transfers: seq<Transfer>, ids: seq<Uuid>, sts: map<Uuid, Settlement>, g: Uuid) {
    && Listed(ids, LiveSettlements(sts, g)) && |transfers| == |ids|
    && forall i :: 0 <= i < |ids| ==>
      ids[i] in LiveSettlements(sts, g)
          && transfers[i] == Transfer(sts[ids[i]].from, sts[ids[i]].to, sts[ids[i]].amount)
  }

  lemma PayersAgree(payers: seq<Entry>, ids: seq<Uuid>, gts: map<Uuid, GroupTx>, g: Uuid, u: Uuid)
    requires PayerRows(payers, ids, gts, g)
    ensures SeqSum(payers, ShareOf(u)) == Sum(gts.Keys, PaidTerm(gts, g, u))
  {
    ListedSum(ids, LiveTxs(gts, g), PaidTerm(gts, g, u), payers, ShareOf(u));
    SumWiden(LiveTxs(gts, g), gts.Keys, PaidTerm(gts, g, u));
  }

  ghost function SplitTerm(gts: map<Uuid, GroupTx>, u: Uuid): ((Uuid, Uuid)) -> int {
    (k: (Uuid, Uuid)) => if k.0 in gts && k.1 == u then SplitAmounts(gts[k.0].splits)(u) else 0
  }

  lemma SplitsAgree(splits: seq<Entry>, ids: seq<(Uuid, Uuid)>, gts: map<Uuid, GroupTx>, g: Uuid, u: Uuid)
    requires SplitRows(splits, ids, gts, g)
    ensures SeqSum(splits, ShareOf(u)) == Sum(gts.Keys, OwedTerm(gts, g, u))
  {
    forall i | 0 <= i < |ids|
      ensures SplitTerm(gts, u)(ids[i]) == ShareOf(u)(splits[i])
    {
      assert ids[i] in LiveSplits(gts, g);
      assert SplitAmounts(gts[ids[i].0].splits)(ids[i].1) == splits[i].amount;
    }
    ListedSum(ids, LiveSplits(gts, g), SplitTerm(gts, u), splits, ShareOf(u));
    SplitsOfOneUser(gts, g, u);
  }

  lemma SplitsOfOneUser(gts: map<Uuid, GroupTx>, g: Uuid, u: Uuid)
    ensures Sum(LiveSplits(gts, g), SplitTerm(gts, u)) == Sum(gts.Keys, OwedTerm(gts, g, u))
  {
    var rows := set id | id in gts && LiveTx(gts, g, id) && u in gts[id].splits;
    var pairs := set id | id in rows :: (id, u);
    var to := map id | id in rows :: (id, u);
    assert to.Values == pairs by {
      assert forall id :: id in rows ==> to[id] in to.Values;
    }
    SumRename(rows, OwedTerm(gts, g, u), pairs, SplitTerm(gts, u), to);
    forall id | id in gts && id !in rows
      ensures OwedTerm(gts, g, u)(id) == 0
    {
      assert SplitAmounts(gts[id].splits)(u) == if u in gts[id].splits then gts[id].splits[u].amount else 0;
    }
    SumWiden(rows, gts.Keys, OwedTerm(gts, g, u));
    SumWiden(pairs, LiveSplits(gts, g), SplitTerm(gts, u));
  }

  lemma TransfersAgree(transfers: seq<Transfer>, ids: seq<Uuid>, sts: map<Uuid, Settlement>, g: Uuid, u: Uuid)
    requires TransferRows(transfers, ids, sts, g)
    ensures SeqSum(transfers, EffectOn(u)) ==
        Sum(sts.Keys, SentTerm(sts, g, u)) - Sum(sts.Keys, ReceivedTerm(sts, g, u))
  {
    var effect := (id: Uuid) => SentTerm(sts, g, u)(id) - ReceivedTerm(sts, g, u)(id);
    forall i | 0 <= i < |ids|
      ensures effect(ids[i]) == EffectOn(u)(transfers[i])
    {
      assert ids[i] in LiveSettlements(sts, g);
      assert SentTerm(sts, g, u)(ids[i]) == if transfers[i].from == u then transfers[i].amount else 0;
      assert ReceivedTerm(sts, g, u)(ids[i]) == if transfers[i].to == u then transfers[i].amount else 0;
    }
    forall id | id in sts && id !in LiveSettlements(sts, g)
      ensures effect(id) == 0
    {
      assert SentTerm(sts, g, u)(id) == 0 && ReceivedTerm(sts, g, u)(id) == 0;
    }
    ListedSum(ids, LiveSettlements(sts, g), effect, transfers, EffectOn(u));
    SumWiden(LiveSettlements(sts, g), sts.Keys, effect);
    SumLinear(sts.Keys, SentTerm(sts, g, u), ReceivedTerm(sts, g, u), effect, -1);
  }

  /** In whatever order the rows come, the accumulated balance is the one the SQL sums give. */
  lemma AccumulationIsSqlBalance(
    payers: seq<Entry>, splits: seq<Entry>, transfers: seq<Transfer>,
    paidIds: seq<Uuid>, splitIds: seq<(Uuid, Uuid)>, settlementIds: seq<Uuid>,
    gts: map<Uuid, GroupTx>, sts: map<Uuid, Settlement>, g: Uuid, u: Uuid)
    requires PayerRows(payers, paidIds, gts, g) && SplitRows(splits, splitIds, gts, g)
    requires TransferRows(transfers, settlementIds, sts, g)
    ensures Net(u, payers, splits, transfers) == UserGroupBalance(gts, sts, g, u)
  {
    PayersAgree(payers, paidIds, gts, g, u);
    SplitsAgree(splits, splitIds, gts, g, u);
    TransfersAgree(transfers, settlementIds, sts, g, u);
  }
}
