/** Leased rows delivered to the central tables, any number of times, during any run. */
module SyncDelivery {
  import opened Prelude
  import opened CentralTables
  import opened SyncModel
  import opened SyncHistory
  import opened SyncRuns
  import opened SyncTheorems

  // After the first `at` transactions, row `row` was leased and was sent with this item.
  datatype Delivery = Delivery(at: nat, row: Id, item: Item)

  ghost predicate Happened(ops: seq<Op>, d: Delivery) {
    d.at <= |ops| &&
    var rows := Exec(Empty, ops[..d.at]).db.rows;
    d.row in rows && Leased(rows[d.row]) && rows[d.row].payload == Deliver(d.item)
  }

  lemma RowSendsOneItem(ops: seq<Op>, d: Delivery, e: Delivery)
    requires Runnable(Empty, ops) && Happened(ops, d) && Happened(ops, e) && d.row == e.row && d.at <= e.at
    ensures d.item == e.item
  {
    hide Enabled, Next;
    var first, rest := ops[..d.at], ops[d.at..e.at];
    assert ops[..e.at] == first + rest && ops == ops[..e.at] + ops[e.at..];
    ExecSplit(Empty, ops[..e.at], ops[e.at..]);
    ExecSplit(Empty, first, rest);
    ContentFrozenByLease(first, rest, d.row);
  }

  function Items(ds: seq<Delivery>): seq<Item> { seq(|ds|, i requires 0 <= i < |ds| => ds[i].item) }

  // Rows that share a central identifier, if any do, carry the same item.
  ghost predicate SlotsAgree(ds: seq<Delivery>) {
    forall d, e :: d in ds && e in ds && SameSlot(d.item, e.item) ==> d.row == e.row || d.item == e.item
  }

  lemma ItemsIn(ds: seq<Delivery>, x: Item)
    ensures x in Items(ds) <==> exists d :: d in ds && d.item == x
  {
    if x in Items(ds) {
      var i :| 0 <= i < |ds| && Items(ds)[i] == x;
      assert ds[i] in ds;
    }
    forall d | d in ds && d.item == x ensures x in Items(ds) {
      var i :| 0 <= i < |ds| && ds[i] == d;
      assert Items(ds)[i] == x;
    }
  }

  ghost predicate SendsRow(ds: seq<Delivery>, q: Id) { exists d :: d in ds && d.row == q }

  ghost predicate SendsNoMore(ds: seq<Delivery>, es: seq<Delivery>) { forall d :: d in ds ==> SendsRow(es, d.row) }

  ghost predicate AllHappened(ops: seq<Op>, ds: seq<Delivery>) { forall d :: d in ds ==> Happened(ops, d) }

  lemma SameRowsSameItems(ops: seq<Op>, ds: seq<Delivery>, es: seq<Delivery>, x: Item)
    requires Runnable(Empty, ops) && AllHappened(ops, ds) && AllHappened(ops, es) && SendsNoMore(ds, es)
    requires x in Items(ds)
    ensures x in Items(es)
  {
    ItemsIn(ds, x);
    var d :| d in ds && d.item == x;
    assert SendsRow(es, d.row);
    var e :| e in es && e.row == d.row;
    if d.at <= e.at { RowSendsOneItem(ops, d, e); } else { RowSendsOneItem(ops, e, d); }
    ItemsIn(es, x);
  }

  lemma DeliveriesConsistent(ops: seq<Op>, ds: seq<Delivery>)
    requires Runnable(Empty, ops) && AllHappened(ops, ds) && SlotsAgree(ds)
    ensures Consistent(Items(ds))
  {
    forall x, y | x in Items(ds) && y in Items(ds) && SameSlot(x, y) ensures x == y {
      ItemsIn(ds, x);
      ItemsIn(ds, y);
      var d :| d in ds && d.item == x;
      var e :| e in ds && e.item == y;
      if d.item != e.item {
        if d.at <= e.at { RowSendsOneItem(ops, d, e); } else { RowSendsOneItem(ops, e, d); }
      }
    }
  }

  /** Two delivery histories of one run that send the same rows, however often and in whatever
      order, leave the central tables equal; in particular one delivery of each row is enough. */
  lemma RedeliveryIsHarmless(ops: seq<Op>, ds: seq<Delivery>, es: seq<Delivery>, t: Tables)
    requires Runnable(Empty, ops) && AllHappened(ops, ds) && AllHappened(ops, es)
    requires SendsNoMore(ds, es) && SendsNoMore(es, ds) && SlotsAgree(ds)
    ensures DeliverAll(t, Items(ds)) == DeliverAll(t, Items(es))
  {
    hide Runnable, AllHappened, SendsNoMore, SlotsAgree, Items;
    DeliveriesConsistent(ops, ds);
    forall x ensures x in Items(ds) <==> x in Items(es) {
      if x in Items(ds) { SameRowsSameItems(ops, ds, es, x); }
      if x in Items(es) { SameRowsSameItems(ops, es, ds, x); }
    }
    DeliveryIsOrderAndCountFree(t, Items(ds), Items(es));
  }

  // ---------------------------------------------------------- where delivered items come from

  // The logical key a payload belongs to.
  function PayloadKey(p: Payload): Key {
    match p
    case CameraPost(c, _) => CameraKey(c)
    case CameraPatch(c, _, _) => CameraKey(c)
    case CameraDelete(c) => CameraKey(c)
    case Deliver(item) => ItemKey(item)
    case SessionRevoke(_) => RevokeKey
  }

  predicate KeyFits(rows: Rows, q: Id) { q in rows && rows[q].key == PayloadKey(rows[q].payload) }

  ghost predicate KeysFit(rows: Rows) { forall q {:trigger KeyFits(rows, q)} :: q in rows ==> KeyFits(rows, q) }

  // Row q is an old row with the key and payload it had.
  predicate KeepsContent(rows: Rows, rows': Rows, q: Id) {
    q in rows && q in rows' && rows'[q].key == rows[q].key && rows'[q].payload == rows[q].payload
  }

  ghost predicate AllKeepContent(rows: Rows, rows': Rows) {
    forall q {:trigger KeepsContent(rows, rows', q)} :: q in rows' ==> KeepsContent(rows, rows', q)
  }

  // Only row `id` has new content, and that is this payload.
  ghost predicate Puts(rows: Rows, rows': Rows, id: Id, payload: Payload) {
    forall q {:trigger KeepsContent(rows, rows', q)} :: q in rows' ==>
      if q == id then rows'[q].payload == payload && KeyFits(rows', q) else KeepsContent(rows, rows', q)
  }

  lemma EnqueuePuts(rows: Rows, endpoint: Endpoint, payload: Payload, key: Key, maxAttempts: nat, dep: Option<Id>,
                    now: Time, newId: Id)
    requires key == PayloadKey(payload)
    ensures Puts(rows, Enqueue(rows, endpoint, payload, key, maxAttempts, dep, now, newId),
                 EnqueuedId(rows, key, newId), payload)
  {
    var rows' := Enqueue(rows, endpoint, payload, key, maxAttempts, dep, now, newId);
    var latest := Latest(rows, key);
    assert latest.Some? ==> latest.value in rows && rows[latest.value].key == key;
    hide Latest, IsLatest;
    forall q | q in rows'
      ensures if q == EnqueuedId(rows, key, newId) then rows'[q].payload == payload && KeyFits(rows', q)
              else KeepsContent(rows, rows', q)
    {
      if latest.Some? && q == latest.value { assert rows[q].key == key; }
    }
  }

  lemma {:induction false} PurgeKeepsContent(rows: Rows, candidates: seq<(Id, State)>, now: Time)
    ensures AllKeepContent(rows, PurgeAll(rows, candidates, now))
    decreases |candidates|
  {
    if candidates != [] {
      var n := |candidates| - 1;
      var before, after := PurgeAll(rows, candidates[..n], now), PurgeAll(rows, candidates, now);
      PurgeKeepsContent(rows, candidates[..n], now);
      PurgeOneKeepsContent(before, candidates[n].0, candidates[n].1, now);
      hide PurgeAll, PurgeOne;
      forall q | q in after ensures KeepsContent(rows, after, q) {
        assert KeepsContent(before, after, q) && KeepsContent(rows, before, q);
      }
    }
  }

  lemma PurgeOneKeepsContent(rows: Rows, id: Id, state: State, now: Time)
    ensures AllKeepContent(rows, PurgeOne(rows, id, state, now))
  {
  }

  // What an operation enqueues, if it enqueues anything.
  ghost predicate OpPuts(db: Db, op: Op) { OpPutsRows(db.rows, Apply(db, op).rows, op) }

  ghost predicate OpPutsRows(rows: Rows, rows': Rows, op: Op) {
    if op.OpAddItem? then
      AllKeepContent(rows, rows') || Puts(rows, rows', EnqueuedId(rows, ItemKey(op.item), op.newId), Deliver(op.item))
    else AllKeepContent(rows, rows') || PutsOther(rows, rows')
  }

  ghost predicate PutsOther(rows: Rows, rows': Rows) {
    exists id: Id, p: Payload :: !p.Deliver? && Puts(rows, rows', id, p)
  }

  lemma CameraOpsPut(db: Db, op: Op)
    requires op.OpCreateCamera? || op.OpUpdateCamera? || op.OpDeleteCamera?
    ensures OpPuts(db, op)
  {
    match op {
      case OpCreateCamera(c, config, limit, id, m, now) =>
        EnqueuePuts(db.rows, Cameras, CameraPost(c, config - {IsActive}), CameraKey(c), m, None, now, id);
      case OpUpdateCamera(c, changes, id, m, now) =>
        if c in db.cameras {
          var (endpoint, payload) := UpdatePayload(db, c, changes);
          EnqueuePuts(db.rows, endpoint, payload, CameraKey(c), m, None, now, id);
        }
      case OpDeleteCamera(c, id, m, now) =>
        EnqueuePuts(db.rows, CameraAt(c), CameraDelete(c), CameraKey(c), m, None, now, id);
    }
    hide Enqueue, EnqueuedId;
  }

  lemma BeginPuts(rows: Rows, generation: nat, newId: Id, token: Token, expires: Time, maxAttempts: nat, now: Time)
    ensures Puts(rows, BeginRows(rows, generation, newId, token, expires, maxAttempts, now),
                 EnqueuedId(rows, RevokeKey, newId), SessionRevoke(generation))
  {
    var queued := Enqueue(rows, Logout, SessionRevoke(generation), RevokeKey, maxAttempts, None, now, newId);
    var rows' := BeginRows(rows, generation, newId, token, expires, maxAttempts, now);
    EnqueuePuts(rows, Logout, SessionRevoke(generation), RevokeKey, maxAttempts, None, now, newId);
    hide Enqueue, EnqueuedId;
    forall q | q in rows' ensures KeepsContent(queued, rows', q) { }
    assert forall q :: q in rows' && KeepsContent(queued, rows', q) && KeepsContent(rows, queued, q) ==>
      KeepsContent(rows, rows', q);
    forall q | q in rows' && q == EnqueuedId(rows, RevokeKey, newId) ensures KeyFits(rows', q) {
      assert KeepsContent(queued, rows', q) && KeepsContent(rows, queued, q) == KeepsContent(rows, queued, q);
      assert KeyFits(queued, q);
    }
  }

  lemma ItemOpsPut(db: Db, op: Op)
    requires op.OpAddItem? || op.OpEnqueueRevocation? || op.OpBeginRevocation?
    ensures OpPuts(db, op)
  {
    match op {
      case OpAddItem(item, id, m, now) =>
        var d := CameraDependency(db, item.camera);
        var dep := if d.On? then Some(d.id) else None;
        EnqueuePuts(db.rows, ItemEndpoint(item), Deliver(item), ItemKey(item), m, dep, now, id);
      case OpEnqueueRevocation(g, id, m, now) =>
        EnqueuePuts(db.rows, Logout, SessionRevoke(g), RevokeKey, m, None, now, id);
      case OpBeginRevocation(g, id, token, lease, m, now) => BeginPuts(db.rows, g + 1, id, token, now + lease, m, now);
    }
    hide Enqueue, EnqueuedId, BeginRows;
  }

  lemma EveryOpPuts(db: Db, op: Op)
    ensures OpPuts(db, op)
  {
    match op {
      case OpCreateCamera(_, _, _, _, _, _) => CameraOpsPut(db, op);
      case OpUpdateCamera(_, _, _, _, _) => CameraOpsPut(db, op);
      case OpDeleteCamera(_, _, _, _) => CameraOpsPut(db, op);
      case OpAddItem(_, _, _, _) => ItemOpsPut(db, op);
      case OpEnqueueRevocation(_, _, _, _) => ItemOpsPut(db, op);
      case OpBeginRevocation(_, _, _, _, _, _) => ItemOpsPut(db, op);
      case OpPurge(candidates, _, _, now) => PurgeKeepsContent(db.rows, candidates, now);
      case _ =>
    }
    hide Enqueue, EnqueuedId, PurgeAll, CreateCamera, UpdateCamera, DeleteCamera, AddItem;
  }

  ghost predicate Accepted(ops: seq<Op>, i: int) {
    0 <= i < |ops| && Apply(Exec(Empty, ops[..i]).db, ops[i]) != Exec(Empty, ops[..i]).db
  }

  // The i-th operation added this item as this row.
  ghost predicate AddedBy(ops: seq<Op>, i: int, q: Id, x: Item) {
    0 <= i < |ops| && ops[i].OpAddItem? && ops[i].item == x && ops[i].newId == q && Accepted(ops, i)
  }

  ghost predicate AddedBefore(ops: seq<Op>, n: nat, q: Id, x: Item) {
    exists i {:trigger AddedBy(ops, i, q, x)} :: 0 <= i < n && AddedBy(ops, i, q, x)
  }

  // No two accepted additions use one identifier of one central table.
  ghost predicate AddsOncePerSlot(ops: seq<Op>) {
    forall i, j {:trigger Accepted(ops, i), Accepted(ops, j)} ::
      0 <= i < j < |ops| && ops[i].OpAddItem? && ops[j].OpAddItem? && Accepted(ops, i) && Accepted(ops, j) ==>
        !SameSlot(ops[i].item, ops[j].item)
  }

  // Every row that delivers an item was added as that item by one of the first n operations.
  ghost predicate RowsWereAdded(ops: seq<Op>, n: nat, rows: Rows) {
    && KeysFit(rows)
    && forall q {:trigger KeyFits(rows, q)} :: q in rows && rows[q].payload.Deliver? ==>
         AddedBefore(ops, n, q, rows[q].payload.item)
  }

  lemma PrefixStep(ops: seq<Op>, n: nat)
    requires Runnable(Empty, ops) && n < |ops|
    ensures Exec(Empty, ops[..n + 1]).db == Apply(Exec(Empty, ops[..n]).db, ops[n])
  {
    hide Enabled, Next, Apply;
    var w, op := Exec(Empty, ops[..n]), ops[n];
    assert ops[..n + 1] == ops[..n] + [op] && ops == ops[..n + 1] + ops[n + 1..];
    ExecSplit(Empty, ops[..n + 1], ops[n + 1..]);
    ExecSplit(Empty, ops[..n], [op]);
    ExecOne(w, op);
    hide Runnable, Exec;
  }

  lemma ExecOne(w: World, op: Op)
    ensures Exec(w, [op]).db == Apply(w.db, op)
  {
    hide Apply, Observe;
    assert [op][1..] == [];
  }

  lemma OneMoreAdded(ops: seq<Op>, n: nat, db: Db)
    requires AddsOncePerSlot(ops) && n < |ops| && RowsWereAdded(ops, n, db.rows) && db == Exec(Empty, ops[..n]).db
    ensures RowsWereAdded(ops, n + 1, Apply(db, ops[n]).rows)
  {
    EveryOpPuts(db, ops[n]);
    assert Accepted(ops, n) <==> Apply(db, ops[n]) != db;
    hide Exec, Apply, RowsWereAdded, AddsOncePerSlot, OpPutsRows;
    ContentAdded(ops, n, db, Apply(db, ops[n]).rows);
  }

  lemma KeysStillFit(rows: Rows, rows': Rows, op: Op)
    requires KeysFit(rows) && OpPutsRows(rows, rows', op)
    ensures KeysFit(rows')
  {
    forall q | q in rows' ensures KeyFits(rows', q) {
      if KeepsContent(rows, rows', q) { assert KeyFits(rows, q); }
    }
  }

  lemma ContentAdded(ops: seq<Op>, n: nat, db: Db, rows': Rows)
    requires AddsOncePerSlot(ops) && n < |ops| && RowsWereAdded(ops, n, db.rows)
    requires OpPutsRows(db.rows, rows', ops[n]) && (Accepted(ops, n) || rows' == db.rows)
    ensures RowsWereAdded(ops, n + 1, rows')
  {
    hide Accepted, EnqueuedId;
    var rows := db.rows;
    KeysStillFit(rows, rows', ops[n]);
    forall q | q in rows' && rows'[q].payload.Deliver? ensures AddedBefore(ops, n + 1, q, rows'[q].payload.item) {
      if KeepsContent(rows, rows', q) {
        assert KeyFits(rows, q);
        var i :| 0 <= i < n && AddedBy(ops, i, q, rows[q].payload.item);
      } else {
        NewRowAdded(ops, n, rows, rows', q);
        assert AddedBy(ops, n, q, rows'[q].payload.item);
      }
    }
  }

  // A row with new content is the new row: no row of its key was left to coalesce with.
  lemma NewRowAdded(ops: seq<Op>, n: nat, rows: Rows, rows': Rows, q: Id)
    requires AddsOncePerSlot(ops) && n < |ops| && RowsWereAdded(ops, n, rows) && Accepted(ops, n)
    requires ops[n].OpAddItem? ==> Puts(rows, rows', EnqueuedId(rows, ItemKey(ops[n].item), ops[n].newId),
                                        Deliver(ops[n].item))
    requires !ops[n].OpAddItem? ==> PutsOther(rows, rows')
    requires q in rows' && rows'[q].payload.Deliver? && !KeepsContent(rows, rows', q)
    ensures AddedBy(ops, n, q, rows'[q].payload.item)
  {
    hide Accepted;
    var op := ops[n];
    if op.OpAddItem? && q != op.newId {
      EnqueuedIsOfKey(rows, ItemKey(op.item), op.newId);
      NoRowOfKey(ops, n, rows, q);
    }
  }

  lemma NoRowOfKey(ops: seq<Op>, n: nat, rows: Rows, q: Id)
    requires AddsOncePerSlot(ops) && n < |ops| && RowsWereAdded(ops, n, rows) && Accepted(ops, n) && ops[n].OpAddItem?
    requires q in rows
    ensures rows[q].key != ItemKey(ops[n].item)
  {
    hide Accepted;
    assert KeyFits(rows, q);
  }

  lemma EnqueuedIsOfKey(rows: Rows, key: Key, newId: Id)
    ensures var q := EnqueuedId(rows, key, newId); q != newId ==> q in rows && rows[q].key == key
  {
  }

  lemma {:induction false} RunAdded(ops: seq<Op>, n: nat)
    requires Runnable(Empty, ops) && AddsOncePerSlot(ops) && n <= |ops|
    ensures RowsWereAdded(ops, n, Exec(Empty, ops[..n]).db.rows)
    decreases n
  {
    hide AddsOncePerSlot, RowsWereAdded, Runnable, Exec, Apply;
    if n == 0 {
      assert ops[..0] == [];
      NothingAdded(ops);
    } else {
      RunAdded(ops, n - 1);
      PrefixStep(ops, n - 1);
      OneMoreAdded(ops, n - 1, Exec(Empty, ops[..n - 1]).db);
    }
  }

  lemma NothingAdded(ops: seq<Op>)
    ensures RowsWereAdded(ops, 0, Exec(Empty, []).db.rows)
  {
  }

  lemma HappenedWasAdded(ops: seq<Op>, d: Delivery)
    requires Runnable(Empty, ops) && AddsOncePerSlot(ops) && Happened(ops, d)
    ensures AddedBefore(ops, d.at, d.row, d.item)
  {
    hide Runnable, Exec, AddsOncePerSlot, AddedBefore;
    RunAdded(ops, d.at);
    assert KeyFits(Exec(Empty, ops[..d.at]).db.rows, d.row);
  }

  /** In a run that adds no identifier twice, rows never share a central identifier, whenever they are sent. */
  lemma DistinctAddsAgree(ops: seq<Op>, ds: seq<Delivery>)
    requires Runnable(Empty, ops) && AddsOncePerSlot(ops) && AllHappened(ops, ds)
    ensures forall d, e :: d in ds && e in ds && SameSlot(d.item, e.item) ==> d.row == e.row
    ensures SlotsAgree(ds)
  {
    hide Runnable, Exec, Accepted, Happened;
    forall d, e | d in ds && e in ds && SameSlot(d.item, e.item) ensures d.row == e.row {
      HappenedWasAdded(ops, d);
      HappenedWasAdded(ops, e);
      var i :| 0 <= i < d.at && AddedBy(ops, i, d.row, d.item);
      var j :| 0 <= j < e.at && AddedBy(ops, j, e.row, e.item);
      hide Happened;
      assert Accepted(ops, i) && Accepted(ops, j);
    }
  }

  /** So in such a run every redelivery is harmless, with nothing to assume of the deliveries. */
  lemma RedeliveryOfDistinctAdds(ops: seq<Op>, ds: seq<Delivery>, es: seq<Delivery>, t: Tables)
    requires Runnable(Empty, ops) && AddsOncePerSlot(ops) && AllHappened(ops, ds) && AllHappened(ops, es)
    requires SendsNoMore(ds, es) && SendsNoMore(es, ds)
    ensures DeliverAll(t, Items(ds)) == DeliverAll(t, Items(es))
  {
    DistinctAddsAgree(ops, ds);
    hide Runnable, AllHappened, SendsNoMore, SlotsAgree, Items;
    RedeliveryIsHarmless(ops, ds, es, t);
  }
}
