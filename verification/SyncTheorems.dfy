/** What holds of the outbox after every run, from an empty database. */
module SyncTheorems {
  import opened Prelude
  import opened CentralTables
  import opened SyncModel
  import opened SyncInvariant
  import opened SyncPurge
  import opened SyncHistory
  import opened SyncRuns

  // -------------------------------------------------------- version order of one key

  lemma EnqueueKeepsOrder(rows: Rows, endpoint: Endpoint, payload: Payload, key: Key,
                          maxAttempts: nat, dep: Option<Id>, now: Time, newId: Id, k: Key)
    requires Shape(rows) && newId !in rows && DependencyFits(rows, key, dep)
    requires k != RevokeKey && Ordered(rows, k) && (k == key ==> NoneStranded(rows, k))
    ensures Ordered(Enqueue(rows, endpoint, payload, key, maxAttempts, dep, now, newId), k)
  {
    var rows' := Enqueue(rows, endpoint, payload, key, maxAttempts, dep, now, newId);
    EnqueueCases(rows, endpoint, payload, key, maxAttempts, dep, now, newId);
    if EnqueuedId(rows, key, newId) == newId {
      InsertKeepsOrder(rows, rows', key, newId, k);
    } else {
      InPlaceKeepsOrder(rows, rows', None, k);
    }
  }

  lemma AddKeepsOrder(w: World, op: Op, k: Key)
    requires Inv(w) && Enabled(w, op) && op.OpAddItem? && IsItemKey(k) && Ordered(w.db.rows, k) && AddsInOrder(w, op, k)
    ensures Ordered(AddItem(w.db, op.item, op.newId, op.maxAttempts, op.now).rows, k)
  {
    var d := CameraDependency(w.db, op.item.camera);
    LatestIs(w.db.rows, CameraKey(op.item.camera));
    if !d.NoCamera? && !d.NoRecord? && ItemKey(op.item) !in w.db.items {
      EnqueueKeepsOrder(w.db.rows, ItemEndpoint(op.item), Deliver(op.item), ItemKey(op.item), op.maxAttempts,
                        if d.On? then Some(d.id) else None, op.now, op.newId, k);
    }
  }

  lemma ProducerKeepsOrder(w: World, op: Op, k: Key)
    requires Inv(w) && Enabled(w, op) && IsProducer(op) && IsItemKey(k) && Ordered(w.db.rows, k)
    requires AddsInOrder(w, op, k)
    ensures Ordered(Apply(w.db, op).rows, k)
  {
    hide Gates, Frozen, Fenced, SucceededOnce, Ever, Ordered, Buried, InPlace, BeginRows;
    var rows := w.db.rows;
    match op {
      case OpCreateCamera(c, config, limit, id, m, now) =>
        EnqueueKeepsOrder(rows, Cameras, CameraPost(c, config - {IsActive}), CameraKey(c), m, None, now, id, k);
      case OpUpdateCamera(c, changes, id, m, now) =>
        if c in w.db.cameras {
          var (endpoint, payload) := UpdatePayload(w.db, c, changes);
          EnqueueKeepsOrder(rows, endpoint, payload, CameraKey(c), m, None, now, id, k);
        }
      case OpDeleteCamera(c, id, m, now) =>
        EnqueueKeepsOrder(rows, CameraAt(c), CameraDelete(c), CameraKey(c), m, None, now, id, k);
        var latest := Latest(rows, CameraKey(c));
        if latest.Some? {
          CancelsInPlace(rows, latest.value, now);
          InPlaceKeepsOrder(rows, CancelWithDependents(rows, latest.value, now), None, k);
        }
      case OpAddItem(_, _, _, _) => AddKeepsOrder(w, op, k);
      case OpSaveSession(now) =>
        CancelsInPlace(rows, 0, now);
        InPlaceKeepsOrder(rows, CancelRevocations(rows, now), None, k);
      case OpEnqueueRevocation(g, id, m, now) =>
        EnqueueKeepsOrder(rows, Logout, SessionRevoke(g), RevokeKey, m, None, now, id, k);
      case OpBeginRevocation(g, id, token, lease, m, now) =>
        BeginRowsChange(rows, g + 1, id, token, now + lease, m, now);
        SameRowsSameOrder(rows, BeginRows(rows, g + 1, id, token, now + lease, m, now), k);
      case OpWriteSession(_) =>
    }
  }

  lemma ConsumerKeepsOrder(w: World, op: Op, k: Key)
    requires Inv(w) && Enabled(w, op) && !IsProducer(op) && !IsSettle(op) && IsItemKey(k) && Ordered(w.db.rows, k)
    ensures Ordered(Apply(w.db, op).rows, k)
  {
    hide Gates, Remembered, Ordered, Buried, InPlace, Lease, Expire, PurgeAll;
    var rows := w.db.rows;
    match op {
      case OpClaim(chosen, lessee, limit, filter, token, lease, now) =>
        ClaimInPlace(rows, chosen, lessee, limit, filter, token, now + lease, now);
        InPlaceKeepsOrder(rows, Lease(Expire(rows, now), chosen, token, lessee, now + lease, now), Some(token), k);
      case OpRetryDead(id, now) =>
        DeadLetterInPlace(rows, id, now);
        InPlaceKeepsOrder(rows, RetryDead(rows, id, now), None, k);
      case OpDiscardDead(id, now) =>
        DeadLetterInPlace(rows, id, now);
        InPlaceKeepsOrder(rows, DiscardDead(rows, id, now), None, k);
      case OpPurge(candidates, _, _, now) => PurgeKeepsOrder(rows, candidates, now, k);
    }
  }

  lemma SettleKeepsOrder(w: World, op: Op, k: Key)
    requires Inv(w) && IsSettle(op) && IsItemKey(k) && Ordered(w.db.rows, k)
    ensures Ordered(Apply(w.db, op).rows, k)
  {
    hide Gates, Remembered, Ordered, Buried, InPlace;
    var rows, rows' := w.db.rows, Apply(w.db, op).rows;
    if rows' != rows {
      SettleInPlace(rows, op.id, op.token, op.lessee, op.OpFail? && op.permanent, op.now);
      InPlaceKeepsOrder(rows, rows', None, k);
    }
  }

  lemma StepKeepsOrder(w: World, op: Op, k: Key)
    requires Inv(w) && Enabled(w, op) && IsItemKey(k) && Ordered(w.db.rows, k) && AddsInOrder(w, op, k)
    ensures Ordered(Next(w, op).db.rows, k)
  {
    if IsProducer(op) { ProducerKeepsOrder(w, op, k); }
    else if IsSettle(op) { SettleKeepsOrder(w, op, k); }
    else { ConsumerKeepsOrder(w, op, k); }
  }

  lemma {:induction false} RunKeepsOrder(w: World, ops: seq<Op>, k: Key)
    requires Inv(w) && Runnable(w, ops) && IsItemKey(k) && Ordered(w.db.rows, k) && RunAddsInOrder(w, ops, k)
    ensures Ordered(Exec(w, ops).db.rows, k)
    decreases |ops|
  {
    hide Inv, Enabled, Next, AddsInOrder, Ordered;
    if ops != [] {
      StepKeepsOrder(w, ops[0], k);
      StepKeepsInv(w, ops[0]);
      RunKeepsOrder(Next(w, ops[0]), ops[1..], k);
    }
  }

  predicate InFlight(rows: Rows, k: Key, q: Id) { q in rows && rows[q].key == k && rows[q].state == Inflight }

  // At most one row of the key is in flight, and a row that was ever leased has
  // only succeeded or cancelled rows below it (rows that are gone were purged).
  ghost predicate InOrder(rows: Rows, k: Key) {
    && (forall a, b :: InFlight(rows, k, a) && InFlight(rows, k, b) ==> a == b)
    && (forall a, b :: Older(rows, a, b) && rows[b].key == k && Leased(rows[b]) ==> Closed(rows[a]))
  }

  lemma OrderedInOrder(rows: Rows, k: Key)
    requires Shape(rows) && Ordered(rows, k)
    ensures InOrder(rows, k)
  {
    forall a, b | InFlight(rows, k, a) && InFlight(rows, k, b)
      ensures a == b
    {
      assert RowOk(rows, a) && RowOk(rows, b) && !Twins(rows, a, b);
      assert !Older(rows, a, b) && !Older(rows, b, a);
    }
  }

  /** Camera rows: one lease at a time and strictly in version order, in every run. */
  lemma CameraRowsInOrder(ops: seq<Op>, c: Id)
    requires Runnable(Empty, ops)
    ensures InOrder(Exec(Empty, ops).db.rows, CameraKey(c))
  {
    EmptyInv();
    RunKeepsInv(Empty, ops);
    OrderedInOrder(Exec(Empty, ops).db.rows, CameraKey(c));
  }

  /** Event, alert and count rows: the same, provided no accepted add of that identifier
      found the newest row of its key closed above an open one. */
  lemma ItemRowsInOrder(ops: seq<Op>, k: Key)
    requires Runnable(Empty, ops) && IsItemKey(k) && RunAddsInOrder(Empty, ops, k)
    ensures InOrder(Exec(Empty, ops).db.rows, k)
  {
    hide Gates, Remembered, Buried, InOrder;
    EmptyInv();
    RunKeepsInv(Empty, ops);
    RunKeepsOrder(Empty, ops, k);
    OrderedInOrder(Exec(Empty, ops).db.rows, k);
  }

  // In no state of the run could a row of the key be leased past an open older one.
  ghost predicate AlwaysSafe(w: World, ops: seq<Op>, k: Key)
    decreases |ops|
  {
    SafeToLease(w.db.rows, k) && (ops == [] || AlwaysSafe(Next(w, ops[0]), ops[1..], k))
  }

  // An accepted addition over a stranded row is unsafe at once.
  lemma StrandedAddUnsafe(w: World, op: Op, k: Key)
    requires Inv(w) && Enabled(w, op) && IsItemKey(k) && Ordered(w.db.rows, k) && !AddsInOrder(w, op, k)
    ensures !SafeToLease(Next(w, op).db.rows, k)
  {
    hide Gates, Frozen, Fenced, SucceededOnce, Ever, Ordered, Buried, SafeToLease, NoneStranded, Enqueue;
    var d := CameraDependency(w.db, op.item.camera);
    LatestIs(w.db.rows, CameraKey(op.item.camera));
    EnqueueSafeIff(w.db.rows, ItemEndpoint(op.item), Deliver(op.item), k, op.maxAttempts,
                   if d.On? then Some(d.id) else None, op.now, op.newId);
  }

  /** An event, alert or count key stays safe throughout a run if and only if every accepted
      addition for it found its newest row not closed above an open one. */
  lemma {:induction false} ItemRowsSafeIff(w: World, ops: seq<Op>, k: Key)
    requires Inv(w) && Runnable(w, ops) && IsItemKey(k) && Ordered(w.db.rows, k)
    ensures AlwaysSafe(w, ops, k) <==> RunAddsInOrder(w, ops, k)
    decreases |ops|
  {
    hide Inv, Enabled, Next, AddsInOrder, Ordered, SafeToLease;
    OrderedIsSafe(w.db.rows, k);
    if ops != [] {
      if AddsInOrder(w, ops[0], k) {
        StepKeepsOrder(w, ops[0], k);
        StepKeepsInv(w, ops[0]);
        ItemRowsSafeIff(Next(w, ops[0]), ops[1..], k);
      } else {
        StrandedAddUnsafe(w, ops[0], k);
      }
    }
  }

  // ------------------------------------------------------------------------- gates

  /** No transaction, purge included, lets a row past a gate that never opened: a row that
      was leased, or that a claim could lease now, was created above no row or above one that
      has been succeeded or cancelled, and its last camera dependency, if any, has succeeded. */
  lemma NoGateBypassed(ops: seq<Op>, q: Id, now: Time, filter: Option<Key>)
    requires Runnable(Empty, ops)
    requires var rows := Exec(Empty, ops).db.rows;
             q in rows && rows[q].key != RevokeKey && (Leased(rows[q]) || Claimable(rows, q, now, filter))
    ensures var log := Exec(Empty, ops).log;
            q in log.pred && q in log.dep && WasClosed(log, log.pred[q]) && HadSucceeded(log, log.dep[q])
  {
    EmptyInv();
    RunKeepsInv(Empty, ops);
    GatesHeld(Exec(Empty, ops), q, now, filter);
    hide Runnable, Exec, Inv;
  }

  lemma GatesHeld(w: World, q: Id, now: Time, filter: Option<Key>)
    requires Inv(w) && q in w.db.rows && w.db.rows[q].key != RevokeKey
    requires Leased(w.db.rows[q]) || Claimable(w.db.rows, q, now, filter)
    ensures q in w.log.pred && q in w.log.dep
    ensures WasClosed(w.log, w.log.pred[q]) && HadSucceeded(w.log, w.log.dep[q])
  {
    assert Gated(w.db.rows[q], w.log.pred[q], w.log.dep[q], w.log);
  }

  /** The graph the purge walks is acyclic after every run. */
  lemma GraphStaysAcyclic(ops: seq<Op>, q: Id)
    requires Runnable(Empty, ops)
    ensures !Reaches(Exec(Empty, ops).db.rows, q, q)
  {
    EmptyInv();
    RunKeepsInv(Empty, ops);
    GraphAcyclic(Exec(Empty, ops).db.rows, q);
  }

  // ------------------------------------------------------------------------ fencing

  // A settlement only acts on the current, unexpired lease; and at one instant a
  // lease is not both settleable and up for reclaiming.
  lemma SettleNeedsLease(db: Db, op: Op)
    requires IsSettle(op)
    ensures Apply(db, op) != db ==> Owned(db.rows, op.id, op.token, op.lessee, op.now)
    ensures Owned(db.rows, op.id, op.token, op.lessee, op.now) ==>
      Expire(db.rows, op.now)[op.id] == db.rows[op.id]
    ensures forall q :: q in db.rows && q != op.id ==> q in Apply(db, op).rows && Apply(db, op).rows[q] == db.rows[q]
  {
  }

  lemma LeasesOnlyGrow(w: World, op: Op, q: Id)
    ensures LeasesOf(w.log, q) <= LeasesOf(Next(w, op).log, q)
  {
    var db' := Apply(w.db, op);
    ObservedLeases(w.log, w.db.rows, db'.rows, db'.cameras, q);
    hide Apply, Observe, LeasesOf;
  }

  lemma RecordedLeases(log: Log, before: Rows, rows: Rows, cameras: map<Id, Camera>)
    ensures Observe(log, before, rows, cameras).leases == LeasesAfter(log, rows)
  {
    hide LeasesAfter, FirstPred, LastDep, BecameSucceeded, SuccessesOf;
  }

  lemma ObservedLeases(log: Log, before: Rows, rows: Rows, cameras: map<Id, Camera>, q: Id)
    ensures LeasesOf(log, q) <= LeasesOf(Observe(log, before, rows, cameras), q)
  {
    hide Observe;
    RecordedLeases(log, before, rows, cameras);
    assert q in rows ==> LeasesOf(log, q) <= NextLeases(log, q, rows[q]);
  }

  lemma {:induction false} RunLeasesOnlyGrow(w: World, ops: seq<Op>, q: Id)
    ensures LeasesOf(w.log, q) <= LeasesOf(Exec(w, ops).log, q)
    decreases |ops|
  {
    hide Next, LeasesOf;
    if ops != [] {
      LeasesOnlyGrow(w, ops[0], q);
      RunLeasesOnlyGrow(Next(w, ops[0]), ops[1..], q);
    }
  }

  // The row has been leased again since it was leased with t.
  ghost predicate OutOfDate(log: Log, q: Id, t: Token) {
    exists i :: 0 <= i < |LeasesOf(log, q)| - 1 && LeasesOf(log, q)[i] == t
  }

  /** A token superseded by a later lease never settles the row again, in any continuation. */
  lemma SupersededTokenIsDead(ops: seq<Op>, more: seq<Op>, op: Op)
    requires Runnable(Empty, ops) && Runnable(Exec(Empty, ops), more)
    requires IsSettle(op) && OutOfDate(Exec(Empty, ops).log, op.id, op.token)
    ensures var db := Exec(Exec(Empty, ops), more).db; Apply(db, op) == db
  {
    hide Runnable, Exec, Next, LeasesOf, Gates, Known, Frozen, SucceededOnce, Ever, CamerasOrdered, Shape, Apply,
      Fenced;
    EmptyInv();
    RunKeepsInv(Empty, ops);
    var w := Exec(Empty, ops);
    RunKeepsInv(w, more);
    RunLeasesOnlyGrow(w, more, op.id);
    var w' := Exec(w, more);
    var i :| 0 <= i < |LeasesOf(w.log, op.id)| - 1 && LeasesOf(w.log, op.id)[i] == op.token;
    StaleTokenSettlesNothing(w'.db, w'.log, op, i);
  }

  lemma StaleTokenSettlesNothing(db: Db, log: Log, op: Op, i: int)
    requires Fenced(db.rows, log) && IsSettle(op)
    requires 0 <= i < |LeasesOf(log, op.id)| - 1 && LeasesOf(log, op.id)[i] == op.token
    ensures Apply(db, op) == db
  {
    StaleTokenNotStored(db.rows, log, op.id, op.token, i);
    SettleNeedsLease(db, op);
    hide Apply, Fenced;
  }

  lemma StaleTokenNotStored(rows: Rows, log: Log, q: Id, t: Token, i: int)
    requires Fenced(rows, log) && 0 <= i < |LeasesOf(log, q)| - 1 && LeasesOf(log, q)[i] == t
    ensures q in rows ==> rows[q].token != Some(t)
  {
    if q in rows {
      assert LastLease(log, q, rows[q].token);
      assert NoRepeats(log.leases[q]);
    }
  }

  /** Every row becomes succeeded at most once. */
  lemma SucceedsAtMostOnce(ops: seq<Op>, q: Id)
    requires Runnable(Empty, ops)
    ensures SuccessesOf(Exec(Empty, ops).log, q) <= 1
  {
    EmptyInv();
    RunKeepsInv(Empty, ops);
    assert SucceededOnce(Exec(Empty, ops).db.rows, Exec(Empty, ops).log);
  }

  // ------------------------------------------------------------------ frozen content

  lemma SentStays(w: World, op: Op, q: Id)
    requires q in w.log.sent
    ensures q in Next(w, op).log.sent && Next(w, op).log.sent[q] == w.log.sent[q]
  {
  }

  lemma {:induction false} RunSentStays(w: World, ops: seq<Op>, q: Id)
    requires q in w.log.sent
    ensures q in Exec(w, ops).log.sent && Exec(w, ops).log.sent[q] == w.log.sent[q]
    decreases |ops|
  {
    hide Next;
    if ops != [] {
      SentStays(w, ops[0], q);
      RunSentStays(Next(w, ops[0]), ops[1..], q);
    }
  }

  /** Once leased, a row keeps its endpoint and payload for as long as it exists. */
  lemma ContentFrozenByLease(ops: seq<Op>, more: seq<Op>, q: Id)
    requires Runnable(Empty, ops) && Runnable(Exec(Empty, ops), more)
    requires var rows := Exec(Empty, ops).db.rows; q in rows && Leased(rows[q])
    ensures var rows, rows' := Exec(Empty, ops).db.rows, Exec(Exec(Empty, ops), more).db.rows;
            q in rows' ==> rows'[q].endpoint == rows[q].endpoint && rows'[q].payload == rows[q].payload
  {
    EmptyInv();
    RunKeepsInv(Empty, ops);
    var w := Exec(Empty, ops);
    RunKeepsInv(w, more);
    assert Frozen(w.db.rows, w.log) && Frozen(Exec(w, more).db.rows, Exec(w, more).log);
    RunSentStays(w, more, q);
  }
}
