/** Offline-queued upserts: the guard in SQL, the classification in Go, and convergence over all
    delivery orders. */
module LastWriteWins {
  import opened Wrappers
  import opened Ledger
  import opened Splits
  import opened Handlers
  import opened GroupLedger

  datatype Row<P> = Row(owner: Uuid, version: Time, payload: P)

  datatype Outcome = Accepted | OwnedByAnother | StaleWrite | IdConflict

  predicate IsStaleWrite(existingUpdatedAt: Time, incomingUpdatedAt: Time) {
    existingUpdatedAt > incomingUpdatedAt
  }

  /** INSERT ... ON CONFLICT (id) DO UPDATE ... WHERE same owner AND updated_at <= EXCLUDED.updated_at. */
  function Upsert<P>(row: Option<Row<P>>, w: Row<P>): Option<Row<P>> {
    match row
    case None => Some(w)
    case Some(r) => if r.owner == w.owner && r.version <= w.version then Some(w) else row
  }

  /** What the handler answers; it looks the row up again when the guard filtered the update out. */
  function Classify<P>(row: Option<Row<P>>, w: Row<P>): Outcome {
    match row
    case None => Accepted
    case Some(r) =>
      if r.owner == w.owner && r.version <= w.version then Accepted
      else if r.owner != w.owner then OwnedByAnother
      else if IsStaleWrite(r.version, w.version) then StaleWrite
      else IdConflict
  }

  function Deliver<P>(row: Option<Row<P>>, ws: seq<Row<P>>): Option<Row<P>> {
    if ws == [] then row else Upsert(Deliver(row, ws[..|ws| - 1]), ws[|ws| - 1])
  }

  /** A rejected write changes nothing, and a rejection by the owner's own row is always stale. */
  lemma RejectionsAreNoOps<P>(row: Option<Row<P>>, w: Row<P>)
    ensures Classify(row, w) == Accepted <==>
            && Upsert(row, w) == Some(w)
            && (row.Some? ==> row.value.owner == w.owner && !IsStaleWrite(row.value.version, w.version))
    ensures Classify(row, w) != Accepted ==> Upsert(row, w) == row
    ensures Classify(row, w) != IdConflict
    ensures row.Some? && row.value.owner == w.owner && Classify(row, w) != Accepted ==> Classify(row, w) == StaleWrite
  {
  }

  ghost predicate Versioned<P(!new)>(ws: seq<Row<P>>, owner: Uuid) {
    && (forall w :: w in ws ==> w.owner == owner)
    && (forall v, w :: v in ws && w in ws && v.version == w.version ==> v == w)
  }

  ghost predicate Newest<P(!new)>(w: Row<P>, ws: seq<Row<P>>) {
    w in ws && forall v :: v in ws ==> v.version <= w.version
  }

  /** Whatever the order and the redeliveries, the newest write stands. */
  lemma {:induction false} NewestStands<P(!new)>(ws: seq<Row<P>>, owner: Uuid)
    requires ws != [] && Versioned(ws, owner)
    ensures Deliver(None, ws).Some? && Newest(Deliver(None, ws).value, ws)
  {
    var n := |ws| - 1;
    assert ws == ws[..n] + [ws[n]];
    if n > 0 {
      NewestStands(ws[..n], owner);
    }
  }

  /** Two devices that deliver the same writes, each in its own order, end with the same row. */
  lemma DeliveriesConverge<P(!new)>(ws: seq<Row<P>>, vs: seq<Row<P>>, owner: Uuid)
    requires Versioned(ws, owner) && forall w :: w in ws <==> w in vs
    ensures Deliver(None, ws) == Deliver(None, vs)
  {
    if ws != [] {
      assert ws[0] in vs;
      NewestStands(ws, owner);
      NewestStands(vs, owner);
    } else {
      SomeElement(vs);
    }
  }

  lemma SomeElement<T(!new)>(s: seq<T>)
    ensures |s| > 0 ==> exists x :: x in s
  {
    if |s| > 0 {
      assert s[0] in s;
    }
  }

  lemma OneDelivery<P(!new)>(w: Row<P>)
    ensures Deliver(None, [w]) == Some(w)
  {
    assert [w][..0] == [];
  }

  /** Distinct timestamps are needed: of two different writes with one timestamp the later
      delivery stands. */
  lemma TiesDiverge<P(!new)>(v: Row<P>, w: Row<P>)
    requires v.owner == w.owner && v.version == w.version && v != w
    ensures Deliver(None, [v, w]) != Deliver(None, [w, v])
  {
    OneDelivery(v);
    OneDelivery(w);
    assert [v, w][..1] == [v] && [w, v][..1] == [w];
  }

  // ----- Personal rows -----

  /** The columns an upsert overwrites. */
  datatype TxColumns = TxColumns(kind: Kind, amount: Cents, details: Details)

  function TxView(db: Tables, id: Uuid): Option<Row<TxColumns>> {
    if id !in db.txs then None
    else
      var tx := db.txs[id];
      Some(Row(tx.user, tx.updatedAt, TxColumns(tx.kind, tx.amount, tx.details)))
  }

  function TxWrite(caller: Uuid, req: UpsertTxRequest, now: Time): Row<TxColumns> {
    Row(caller, OrElse(req.updatedAt, now), TxColumns(req.kind, Rounded(req.amount), req.details))
  }

  function Answer(o: Outcome, otherOwner: string): Response {
    match o
    case Accepted => Ok
    case OwnedByAnother => Conflict(otherOwner)
    case StaleWrite => Conflict("STALE_WRITE")
    case IdConflict => Conflict("")
  }

  /** Deletion and links, which no upsert touches. */
  predicate SameStanding(tx: Tx, tx': Tx) {
    tx'.isDeleted == tx.isDeleted && tx'.groupTx == tx.groupTx && tx'.settlement == tx.settlement
  }

  /** The personal upsert is the guarded write of these columns. What it writes afresh is live and free. */
  lemma PersonalUpsertIsLww(db: Tables, caller: Uuid, req: UpsertTxRequest, now: Time, db': Tables)
    requires Storable(req.amount) && Step(db, UpsertTx(caller, req), now, db')
    ensures TxView(db', req.id) == Upsert(TxView(db, req.id), TxWrite(caller, req, now))
    ensures UpsertTxResult(db, caller, req, now) ==
        Answer(Classify(TxView(db, req.id), TxWrite(caller, req, now)), "ID_OWNED_BY_ANOTHER_USER")
    ensures Classify(TxView(db, req.id), TxWrite(caller, req, now)) != Accepted ==> db' == db
    ensures UpsertTxResult(db, caller, req, now) == Ok ==>
              var tx' := db'.txs[req.id];
              if req.id in db.txs then SameStanding(db.txs[req.id], tx')
              else !tx'.isDeleted && tx'.groupTx.None? && tx'.settlement.None?
  {
  }

  // ----- Shared transactions, split amounts included -----

  datatype GroupTxColumns = GroupTxColumns(
    paidBy: Uuid, total: Cents, details: Details, isDeleted: bool, amounts: map<Uuid, Cents>)

  function Amounts(splits: map<Uuid, Split>): map<Uuid, Cents> {
    map u | u in splits :: splits[u].amount
  }

  function GroupTxView(db: Tables, id: Uuid): Option<Row<GroupTxColumns>> {
    if id !in db.groupTxs then None
    else
      var gt := db.groupTxs[id];
      Some(Row(gt.group, gt.updatedAt,
          GroupTxColumns(gt.paidBy, gt.total, gt.details, gt.isDeleted, Amounts(gt.splits))))
  }

  function GroupTxWrite(g: Uuid, req: CreateGroupTxRequest, now: Time): Row<GroupTxColumns> {
    var amounts := map u | u in Users(req.splits) :: AmountOf(req.splits, u);
    Row(g, OrElse(req.updatedAt, now), GroupTxColumns(req.paidBy, Rounded(req.total), req.details, false, amounts))
  }

  /** A request that passes validation: only the state of the row can still reject it. */
  predicate Deliverable(db: Tables, caller: Uuid, g: Uuid, req: CreateGroupTxRequest, now: Time) {
    CreateGroupTxResult(db, caller, g, req, now) in {Ok, Conflict("ID_OWNED_BY_ANOTHER_GROUP"), Conflict("STALE_WRITE")}
  }

  /** What an accepted one writes. */
  lemma SharedUpsertWrites(db: Tables, g: Uuid, req: CreateGroupTxRequest, now: Time, db': Tables)
    requires CreateGroupTxEffect(db, g, req, now, db')
    ensures GroupTxView(db', req.id) == Some(GroupTxWrite(g, req, now))
  {
    hide AmountOf, Served, Users, Rounded;
    assert Amounts(db'.groupTxs[req.id].splits) == GroupTxWrite(g, req, now).payload.amounts;
  }

  lemma SharedUpsertIsLww(db: Tables, caller: Uuid, g: Uuid, req: CreateGroupTxRequest, now: Time, db': Tables)
    requires Deliverable(db, caller, g, req, now) && Step(db, CreateGroupTx(caller, g, req), now, db')
    ensures GroupTxView(db', req.id) == Upsert(GroupTxView(db, req.id), GroupTxWrite(g, req, now))
    ensures CreateGroupTxResult(db, caller, g, req, now) ==
        Answer(Classify(GroupTxView(db, req.id), GroupTxWrite(g, req, now)), "ID_OWNED_BY_ANOTHER_GROUP")
    ensures Classify(GroupTxView(db, req.id), GroupTxWrite(g, req, now)) != Accepted ==> db' == db
  {
    hide InputSum, OneCurrency, Refused, Amounts, AmountOf, Rounded, CreateGroupTxEffect;
    if CreateGroupTxResult(db, caller, g, req, now) == Ok {
      SharedUpsertWrites(db, g, req, now, db');
    }
  }

  // ----- Runs of the ledger -----

  /** The owner sends a version of the personal row `id`. */
  predicate Sends(c: Command, id: Uuid, owner: Uuid) {
    c.UpsertTx? && c.caller == owner && c.upsert.id == id && Storable(c.upsert.amount)
  }

  /** Any commands, of which those that do not send a version of the row leave it alone. */
  ghost predicate PersonalRun(states: seq<Tables>, commands: seq<Command>, times: seq<Time>, id: Uuid, owner: Uuid) {
    && |states| == |commands| + 1 && |times| == |commands|
    && id !in states[0].txs
    && forall i :: 0 <= i < |commands| ==> PersonalStep(states[i], commands[i], times[i], states[i + 1], id, owner)
  }

  ghost predicate PersonalStep(db: Tables, c: Command, now: Time, db': Tables, id: Uuid, owner: Uuid) {
    && Step(db, c, now, db')
    && (Sends(c, id, owner) || TxView(db', id) == TxView(db, id))
  }

  /** The versions sent by the first `n` commands. */
  function PersonalWrites(commands: seq<Command>, times: seq<Time>, id: Uuid, owner: Uuid, n: nat): seq<Row<TxColumns>>
    requires |times| == |commands| && n <= |commands|
  {
    if n == 0 then []
    else
      var c := commands[n - 1];
      var last := if Sends(c, id, owner) then [TxWrite(owner, c.upsert, times[n - 1])] else [];
      PersonalWrites(commands, times, id, owner, n - 1) + last
  }

  lemma DeliverOneMore<P(!new)>(row: Option<Row<P>>, ws: seq<Row<P>>, w: Row<P>)
    ensures Deliver(row, ws + [w]) == Upsert(Deliver(row, ws), w) && Deliver(row, ws + []) == Deliver(row, ws)
  {
    assert (ws + [w])[..|ws|] == ws && ws + [] == ws;
  }

  lemma {:induction false} PersonalRunDelivers(
    states: seq<Tables>, commands: seq<Command>, times: seq<Time>, id: Uuid, owner: Uuid, n: nat)
    requires PersonalRun(states, commands, times, id, owner) && n <= |commands|
    ensures TxView(states[n], id) == Deliver(None, PersonalWrites(commands, times, id, owner, n))
  {
    hide Step, TxView, TxWrite, Deliver, Upsert;
    if n == 0 {
      NothingDelivered(states[0], id);
    } else {
      PersonalRunDelivers(states, commands, times, id, owner, n - 1);
      var c, now := commands[n - 1], times[n - 1];
      assert PersonalStep(states[n - 1], c, now, states[n - 1 + 1], id, owner);
      if Sends(c, id, owner) {
        PersonalUpsertIsLww(states[n - 1], owner, c.upsert, now, states[n]);
        DeliverOneMore(None, PersonalWrites(commands, times, id, owner, n - 1), TxWrite(owner, c.upsert, now));
      } else {
        assert PersonalWrites(commands, times, id, owner, n) == PersonalWrites(commands, times, id, owner, n - 1);
      }
    }
  }

  lemma NothingDelivered(db: Tables, id: Uuid)
    ensures id !in db.txs ==> TxView(db, id) == Deliver(None, [])
    ensures id !in db.groupTxs ==> GroupTxView(db, id) == Deliver(None, [])
  {
  }

  /** Whatever the order and the redeliveries, and whatever happens in between, the row holds the
      columns of the newest version sent. */
  lemma PersonalRunKeepsNewest(
    states: seq<Tables>, commands: seq<Command>, times: seq<Time>, id: Uuid, owner: Uuid)
    requires PersonalRun(states, commands, times, id, owner)
    requires var ws := PersonalWrites(commands, times, id, owner, |commands|); ws != [] && Versioned(ws, owner)
    ensures var view := TxView(states[|commands|], id);
            view.Some? && Newest(view.value, PersonalWrites(commands, times, id, owner, |commands|))
  {
    hide Step, TxView, Deliver, Versioned, Newest;
    PersonalRunDelivers(states, commands, times, id, owner, |commands|);
    NewestStands(PersonalWrites(commands, times, id, owner, |commands|), owner);
  }

  /** A group sends a version of the shared transaction `id` that passes validation. */
  predicate SendsShared(db: Tables, c: Command, now: Time, id: Uuid, g: Uuid) {
    c.CreateGroupTx? && c.g == g && c.create.id == id && Deliverable(db, c.caller, g, c.create, now)
  }

  ghost predicate SharedRun(states: seq<Tables>, commands: seq<Command>, times: seq<Time>, id: Uuid, g: Uuid) {
    && |states| == |commands| + 1 && |times| == |commands|
    && id !in states[0].groupTxs
    && forall i :: 0 <= i < |commands| ==> SharedStep(states[i], commands[i], times[i], states[i + 1], id, g)
  }

  ghost predicate SharedStep(db: Tables, c: Command, now: Time, db': Tables, id: Uuid, g: Uuid) {
    && Step(db, c, now, db')
    && (SendsShared(db, c, now, id, g) || GroupTxView(db', id) == GroupTxView(db, id))
  }

  function SharedWrites(
    states: seq<Tables>, commands: seq<Command>, times: seq<Time>, id: Uuid, g: Uuid, n: nat): seq<Row<GroupTxColumns>>
    requires |states| > |commands| == |times| && n <= |commands|
  {
    if n == 0 then []
    else
      var c, now := commands[n - 1], times[n - 1];
      var last := if SendsShared(states[n - 1], c, now, id, g) then [GroupTxWrite(g, c.create, now)] else [];
      SharedWrites(states, commands, times, id, g, n - 1) + last
  }

  lemma {:induction false} SharedRunDelivers(
    states: seq<Tables>, commands: seq<Command>, times: seq<Time>, id: Uuid, g: Uuid, n: nat)
    requires SharedRun(states, commands, times, id, g) && n <= |commands|
    ensures GroupTxView(states[n], id) == Deliver(None, SharedWrites(states, commands, times, id, g, n))
  {
    hide Step, Deliverable, GroupTxView, GroupTxWrite, Deliver, Upsert;
    if n == 0 {
      NothingDelivered(states[0], id);
    } else {
      SharedRunDelivers(states, commands, times, id, g, n - 1);
      var c, now := commands[n - 1], times[n - 1];
      assert SharedStep(states[n - 1], c, now, states[n - 1 + 1], id, g);
      if SendsShared(states[n - 1], c, now, id, g) {
        SharedUpsertIsLww(states[n - 1], c.caller, g, c.create, now, states[n]);
        DeliverOneMore(None, SharedWrites(states, commands, times, id, g, n - 1), GroupTxWrite(g, c.create, now));
      } else {
        assert SharedWrites(states, commands, times, id, g, n) == SharedWrites(states, commands, times, id, g, n - 1);
      }
    }
  }

  /** Two servers that receive the same versions of a shared transaction in any orders, with any
      redeliveries and with anything else in between, hold the same transaction with the same split
      amounts. */
  lemma SharedRunsConverge(
    states: seq<Tables>, commands: seq<Command>, times: seq<Time>,
    states': seq<Tables>, commands': seq<Command>, times': seq<Time>, id: Uuid, g: Uuid)
    requires SharedRun(states, commands, times, id, g) && SharedRun(states', commands', times', id, g)
    requires Versioned(SharedWrites(states, commands, times, id, g, |commands|), g)
    requires forall w :: w in SharedWrites(states, commands, times, id, g, |commands|) <==>
                         w in SharedWrites(states', commands', times', id, g, |commands'|)
    ensures GroupTxView(states[|commands|], id) == GroupTxView(states'[|commands'|], id)
  {
    hide SharedStep, GroupTxView, Deliver, Versioned;
    SharedRunDelivers(states, commands, times, id, g, |commands|);
    SharedRunDelivers(states', commands', times', id, g, |commands'|);
    DeliveriesConverge(
      SharedWrites(states, commands, times, id, g, |commands|),
      SharedWrites(states', commands', times', id, g, |commands'|), g);
  }

  // ----- Deletes -----

  /** Deleting a personal row leaves nothing behind: a redelivery of any version, however old, brings it
      back. */
  lemma RedeliveryRevivesDeleted(
    db: Tables, owner: Uuid, id: Uuid, t1: Time, db1: Tables, req: UpsertTxRequest, t2: Time, db2: Tables)
    requires Result(db, DeleteTx(owner, id), t1) == Ok && Step(db, DeleteTx(owner, id), t1, db1)
    requires req.id == id && Storable(req.amount) && Step(db1, UpsertTx(owner, req), t2, db2)
    ensures Result(db1, UpsertTx(owner, req), t2) == Ok
    ensures TxView(db2, id) == Some(TxWrite(owner, req, t2))
  {
    assert TxView(db1, id) == None;
    hide Step, TxView, TxWrite;
    PersonalUpsertIsLww(db1, owner, req, t2, db2);
  }

  /** Deleting a shared transaction leaves its row: versions older than the delete are stale. */
  lemma TombstoneRejectsOlder(
    db: Tables, caller: Uuid, g: Uuid, id: Uuid, t1: Time, db1: Tables, sender: Uuid, req: CreateGroupTxRequest,
    t2: Time)
    requires Result(db, DeleteGroupTx(caller, g, id), t1) == Ok && Step(db, DeleteGroupTx(caller, g, id), t1, db1)
    requires req.id == id && OrElse(req.updatedAt, t2) < t1 && Deliverable(db1, sender, g, req, t2)
    ensures CreateGroupTxResult(db1, sender, g, req, t2) == Conflict("STALE_WRITE")
  {
    hide InputSum, OneCurrency, Refused, Users, Storable;
  }
}
