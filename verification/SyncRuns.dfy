/**
 Every run of the outbox, in any order and with any clock readings: what each
 transaction keeps, and the theorems about whole runs.
 */
module SyncRuns {
  import opened Prelude
  import opened CentralTables
  import opened SyncModel
  import opened SyncInvariant
  import opened SyncPurge
  import opened SyncHistory

  // uuid4() values are fresh.
  ghost predicate Fresh(w: World, op: Op) {
    match op
    case OpCreateCamera(c, _, _, id, _, _) => c !in w.log.cameras && id !in w.log.ids
    case OpUpdateCamera(_, _, id, _, _) => id !in w.log.ids
    case OpDeleteCamera(_, id, _, _) => id !in w.log.ids
    case OpAddItem(_, id, _, _) => id !in w.log.ids
    case OpClaim(_, _, _, _, token, _, _) => token !in w.log.tokens
    case OpEnqueueRevocation(_, id, _, _) => id !in w.log.ids
    case OpBeginRevocation(_, id, token, _, _, _) => id !in w.log.ids && token !in w.log.tokens
    case _ => true
  }

  ghost predicate Enabled(w: World, op: Op) { WellFormed(w.db, op) && Fresh(w, op) }

  ghost function Next(w: World, op: Op): World {
    var db' := Apply(w.db, op);
    World(db', Observe(w.log, w.db.rows, db'.rows, db'.cameras))
  }

  ghost predicate Runnable(w: World, ops: seq<Op>)
    decreases |ops|
  {
    ops == [] || (Enabled(w, ops[0]) && Runnable(Next(w, ops[0]), ops[1..]))
  }

  ghost function Exec(w: World, ops: seq<Op>): World
    decreases |ops|
  {
    if ops == [] then w else Exec(Next(w, ops[0]), ops[1..])
  }

  // The invariant after a transaction that turns w's database into db'.
  ghost predicate Kept(w: World, db': Db) {
    Inv(World(db', Observe(w.log, w.db.rows, db'.rows, db'.cameras)))
  }

  ghost predicate Inv(w: World) {
    Shape(w.db.rows) && CamerasOrdered(w.db) && Remembered(w.db, w.log) && Gates(w.db.rows, w.log)
  }

  // The condition a caller of add_event, add_alert or add_people_count can check first.
  ghost predicate AddsInOrder(w: World, op: Op, k: Key) {
    (op.OpAddItem? && ItemKey(op.item) == k && AddItem(w.db, op.item, op.newId, op.maxAttempts, op.now) != w.db) ==>
      NoneStranded(w.db.rows, k)
  }

  ghost predicate RunAddsInOrder(w: World, ops: seq<Op>, k: Key)
    decreases |ops|
  {
    ops == [] || (AddsInOrder(w, ops[0], k) && RunAddsInOrder(Next(w, ops[0]), ops[1..], k))
  }

  // ------------------------------------------------------------------- kinds of change

  // No camera row closes without having been leased while its camera stays.
  ghost predicate ClosesFairly(rows: Rows, rows': Rows, cameras': map<Id, Camera>)
    requires rows'.Keys == rows.Keys
  {
    forall q :: q in rows && rows[q].key.CameraKey? && Closed(rows'[q]) && !Closed(rows[q]) ==>
      Leased(rows[q]) || rows[q].key.camera !in cameras'
  }

  lemma KeptInPlace(w: World, db': Db, issued: Option<Token>)
    requires Inv(w) && InPlace(w.db.rows, db'.rows, issued) && FreshFor(w.log, issued, None)
    requires db'.cameras.Keys <= w.db.cameras.Keys && ClosesFairly(w.db.rows, db'.rows, db'.cameras)
    ensures Kept(w, db')
  {
    InPlaceKeepsShape(w.db.rows, db'.rows, issued);
    InPlaceKeepsBuried(w.db.rows, db'.rows, issued, w.db.cameras, db'.cameras);
    forall c ensures Ordered(db'.rows, CameraKey(c)) {
      InPlaceKeepsOrder(w.db.rows, db'.rows, issued, CameraKey(c));
    }
    InPlaceEvolves(w.db.rows, db'.rows, issued);
    ObserveKeeps(w.db, w.log, db', issued, None);
    GatesInPlace(w.db.rows, db'.rows, issued, w.log, db'.cameras);
  }

  lemma KeptByInsert(w: World, db': Db, key: Key, newId: Id)
    requires Inv(w) && IsInsert(w.db.rows, db'.rows, key, newId) && newId !in w.log.ids
    requires key.CameraKey? ==> key.camera in w.db.cameras || db'.rows[newId].pred.None?
    requires forall c :: c in db'.cameras && c !in w.db.cameras ==> key == CameraKey(c) && db'.rows[newId].pred.None?
    ensures Kept(w, db')
  {
    InsertKeepsShape(w.db.rows, db'.rows, key, newId);
    InsertKeepsBuried(w.db.rows, db'.rows, key, newId, w.db.cameras, db'.cameras);
    forall c ensures Ordered(db'.rows, CameraKey(c)) {
      if key == CameraKey(c) && c in w.db.cameras { LiveCameraNotStranded(w.db, c); }
      InsertKeepsOrder(w.db.rows, db'.rows, key, newId, CameraKey(c));
    }
    InsertEvolves(w.db.rows, db'.rows, key, newId);
    ObserveKeeps(w.db, w.log, db', None, Some(newId));
    GatesInsert(w.db.rows, db'.rows, key, newId, w.log, db'.cameras);
  }

  // An enqueue for a key whose camera, if it has one, exists or is new.
  lemma KeptByEnqueue(w: World, db': Db, endpoint: Endpoint, payload: Payload, key: Key,
                      maxAttempts: nat, dep: Option<Id>, now: Time, newId: Id)
    requires Inv(w) && newId !in w.log.ids && DependencyFits(w.db.rows, key, dep)
    requires db'.rows == Enqueue(w.db.rows, endpoint, payload, key, maxAttempts, dep, now, newId)
    requires key.CameraKey? ==> key.camera in w.db.cameras || key.camera !in w.log.cameras
    requires forall c :: c in db'.cameras && c !in w.db.cameras ==> key == CameraKey(c)
    ensures Kept(w, db')
  {
    assert Shape(w.db.rows) && newId !in w.db.rows;
    hide Kept, Observe, Gates, Frozen, Fenced, SucceededOnce, Ever, Ordered, Buried, Shape, CamerasOrdered;
    EnqueueCases(w.db.rows, endpoint, payload, key, maxAttempts, dep, now, newId);
    if EnqueuedId(w.db.rows, key, newId) == newId {
      KeptByInsert(w, db', key, newId);
    } else {
      KeptByCoalescing(w, db', key, EnqueuedId(w.db.rows, key, newId));
    }
  }

  lemma KeptByCoalescing(w: World, db': Db, key: Key, l: Id)
    requires Inv(w) && IsLatest(w.db.rows, key, l) && InPlace(w.db.rows, db'.rows, None)
    requires l in db'.rows && db'.rows == w.db.rows[l := db'.rows[l]] && db'.rows[l].state == Pending
    requires key.CameraKey? ==> key.camera in w.db.cameras || key.camera !in w.log.cameras
    requires forall c :: c in db'.cameras && c !in w.db.cameras ==> key == CameraKey(c)
    ensures Kept(w, db')
  {
    hide Kept, Observe, Gates, Frozen, Fenced, SucceededOnce, Ever, Ordered, Buried, Shape, CamerasOrdered;
    KeptInPlace(w, db', None);
  }

  // ------------------------------------------------------------------ one lemma per kind

  lemma ClaimInPlace(rows: Rows, chosen: set<Id>, owner: string, limit: nat, filter: Option<Key>,
                     token: Token, expires: Time, now: Time)
    requires Shape(rows) && ClaimSet(Expire(rows, now), chosen, now, filter, limit)
    ensures InPlace(rows, Lease(Expire(rows, now), chosen, token, owner, expires, now), Some(token))
    ensures forall q :: q in rows ==>
      (Closed(Lease(Expire(rows, now), chosen, token, owner, expires, now)[q]) <==> Closed(rows[q]))
  {
    var expired := Expire(rows, now);
    var rows' := Lease(expired, chosen, token, owner, expires, now);
    forall q | q in rows
      ensures RowStep(rows, rows[q], rows'[q], Some(token))
      ensures Closed(rows'[q]) <==> Closed(rows[q])
    {
      assert RowOk(rows, q);
      if q in chosen {
        assert Claimable(expired, q, now, filter);
        assert PredGate(rows, rows[q]) && DepGate(rows, rows[q]);
      }
    }
  }

  lemma SettleInPlace(rows: Rows, id: Id, token: Token, owner: string, permanent: bool, now: Time)
    requires Linked(rows) && Owned(rows, id, token, owner, now)
    ensures InPlace(rows, Succeed(rows, id, now), None)
    ensures InPlace(rows, Fail(rows, id, token, owner, permanent, now), None)
  {
    assert RowOk(rows, id);
    forall q | q in rows
      ensures RowStep(rows, rows[q], Succeed(rows, id, now)[q], None)
      ensures RowStep(rows, rows[q], Fail(rows, id, token, owner, permanent, now)[q], None)
    {
      assert RowOk(rows, q);
    }
  }

  lemma SameInPlace(rows: Rows)
    requires Linked(rows)
    ensures InPlace(rows, rows, None)
  {
    forall q | q in rows ensures RowStep(rows, rows[q], rows[q], None) { assert RowOk(rows, q); }
  }

  lemma DeadLetterInPlace(rows: Rows, id: Id, now: Time)
    requires Linked(rows)
    ensures InPlace(rows, RetryDead(rows, id, now), None) && InPlace(rows, DiscardDead(rows, id, now), None)
    ensures forall q :: q in rows && Closed(DiscardDead(rows, id, now)[q]) && !Closed(rows[q]) ==> Leased(rows[q])
  {
    forall q | q in rows
      ensures RowStep(rows, rows[q], RetryDead(rows, id, now)[q], None)
      ensures RowStep(rows, rows[q], DiscardDead(rows, id, now)[q], None)
      ensures Closed(DiscardDead(rows, id, now)[q]) && !Closed(rows[q]) ==> Leased(rows[q])
    {
      assert RowOk(rows, q);
    }
  }

  lemma CancelsInPlace(rows: Rows, id: Id, now: Time)
    requires Linked(rows)
    ensures InPlace(rows, CancelWithDependents(rows, id, now), None)
    ensures InPlace(rows, CancelRevocations(rows, now), None)
  {
    forall q | q in rows
      ensures RowStep(rows, rows[q], CancelWithDependents(rows, id, now)[q], None)
      ensures RowStep(rows, rows[q], CancelRevocations(rows, now)[q], None)
    {
      assert RowOk(rows, q);
    }
  }

  lemma KeptByNothing(w: World, db': Db)
    requires Inv(w) && db'.rows == w.db.rows && db'.cameras.Keys <= w.db.cameras.Keys
    ensures Kept(w, db')
  {
    SameInPlace(w.db.rows);
    KeptInPlace(w, db', None);
  }

  lemma KeptByDelete(w: World, c: Id, newId: Id, maxAttempts: nat, now: Time)
    requires Inv(w) && newId !in w.log.ids
    ensures Kept(w, DeleteCamera(w.db, c, newId, maxAttempts, now))
  {
    hide Kept;
    var db' := DeleteCamera(w.db, c, newId, maxAttempts, now);
    if c !in w.db.cameras {
      KeptByNothing(w, db');
    } else {
      LatestIs(w.db.rows, CameraKey(c));
      var latest := Latest(w.db.rows, CameraKey(c));
      if w.db.cameras[c].serverId.None? && latest.Some? && Waiting(w.db.rows[latest.value]) {
        KeptByCancel(w, db', c, latest.value, now);
      } else {
        KeptByEnqueue(w, db', CameraAt(c), CameraDelete(c), CameraKey(c), maxAttempts, None, now, newId);
      }
    }
  }

  lemma KeptByCancel(w: World, db': Db, c: Id, l: Id, now: Time)
    requires Inv(w) && IsLatest(w.db.rows, CameraKey(c), l)
    requires db'.rows == CancelWithDependents(w.db.rows, l, now) && db'.cameras == w.db.cameras - {c}
    ensures Kept(w, db')
  {
    hide Kept;
    CancelFair(w.db.rows, c, l, now, db'.cameras);
    KeptInPlace(w, db', None);
  }

  lemma CancelFair(rows: Rows, c: Id, l: Id, now: Time, cameras': map<Id, Camera>)
    requires Linked(rows) && IsLatest(rows, CameraKey(c), l) && c !in cameras'
    ensures InPlace(rows, CancelWithDependents(rows, l, now), None)
    ensures ClosesFairly(rows, CancelWithDependents(rows, l, now), cameras')
  {
    CancelsInPlace(rows, l, now);
    forall q | q in rows ensures rows[q].key.CameraKey? ==> rows[q].dep.None? { assert RowOk(rows, q); }
  }

  lemma KeptByAdd(w: World, item: Item, newId: Id, maxAttempts: nat, now: Time)
    requires Inv(w) && newId !in w.log.ids
    ensures Kept(w, AddItem(w.db, item, newId, maxAttempts, now))
  {
    hide Kept;
    var db' := AddItem(w.db, item, newId, maxAttempts, now);
    var d := CameraDependency(w.db, item.camera);
    LatestIs(w.db.rows, CameraKey(item.camera));
    if d.NoCamera? || d.NoRecord? || ItemKey(item) in w.db.items {
      KeptByNothing(w, db');
    } else {
      KeptByEnqueue(w, db', ItemEndpoint(item), Deliver(item), ItemKey(item), maxAttempts,
                    if d.On? then Some(d.id) else None, now, newId);
    }
  }

  lemma KeptByCreate(w: World, c: Id, config: Config, maxCameras: nat, newId: Id, maxAttempts: nat, now: Time)
    requires Inv(w) && newId !in w.log.ids && c !in w.log.cameras
    ensures Kept(w, CreateCamera(w.db, c, config, maxCameras, newId, maxAttempts, now))
  {
    hide Kept;
    var db' := CreateCamera(w.db, c, config, maxCameras, newId, maxAttempts, now);
    if |w.db.cameras| >= maxCameras {
      KeptByNothing(w, db');
    } else {
      KeptByEnqueue(w, db', Cameras, CameraPost(c, config - {IsActive}), CameraKey(c), maxAttempts, None, now, newId);
    }
  }

  lemma KeptByUpdate(w: World, c: Id, changes: Config, newId: Id, maxAttempts: nat, now: Time)
    requires Inv(w) && newId !in w.log.ids
    ensures Kept(w, UpdateCamera(w.db, c, changes, newId, maxAttempts, now))
  {
    hide Kept;
    var db' := UpdateCamera(w.db, c, changes, newId, maxAttempts, now);
    if c !in w.db.cameras {
      KeptByNothing(w, db');
    } else {
      var (endpoint, payload) := UpdatePayload(w.db, c, changes);
      KeptByEnqueue(w, db', endpoint, payload, CameraKey(c), maxAttempts, None, now, newId);
    }
  }

  lemma KeptBySettle(w: World, db': Db, id: Id, token: Token, owner: string, permanent: bool, now: Time)
    requires Inv(w) && db'.cameras.Keys == w.db.cameras.Keys && Owned(w.db.rows, id, token, owner, now)
    requires db'.rows == Succeed(w.db.rows, id, now) || db'.rows == Fail(w.db.rows, id, token, owner, permanent, now)
    ensures Kept(w, db')
  {
    hide Kept, Observe, Gates, Remembered, Ordered, Buried;
    SettleInPlace(w.db.rows, id, token, owner, permanent, now);
    assert RowOk(w.db.rows, id);
    KeptInPlace(w, db', None);
  }

  lemma KeptByPurge(w: World, candidates: seq<(Id, State)>, closedBefore: Time, deadBefore: Time, now: Time)
    requires Inv(w) && CandidateList(w.db.rows, candidates, closedBefore, deadBefore)
    ensures Kept(w, w.db.(rows := PurgeAll(w.db.rows, candidates, now)))
  {
    var db' := w.db.(rows := PurgeAll(w.db.rows, candidates, now));
    PurgeListKeepsBuried(w.db.rows, candidates, closedBefore, deadBefore, now, w.db.cameras);
    PurgeEvolves(w.db.rows, candidates, now);
    ObserveKeeps(w.db, w.log, db', None, None);
    PurgeListKeepsGates(w.db.rows, candidates, closedBefore, deadBefore, now, w.log);
    GatesObserved(db'.rows, w.db.rows, w.log, db'.cameras);
  }

  lemma PurgeListKeepsBuried(rows: Rows, candidates: seq<(Id, State)>, closedBefore: Time, deadBefore: Time, now: Time,
                             cameras: map<Id, Camera>)
    requires Shape(rows) && (forall c :: Ordered(rows, CameraKey(c))) && Buried(rows, cameras)
    requires CandidateList(rows, candidates, closedBefore, deadBefore)
    ensures var rows' := PurgeAll(rows, candidates, now);
            Shape(rows') && (forall c :: Ordered(rows', CameraKey(c))) && Buried(rows', cameras)
  {
    ListIsSnapshot(rows, candidates, closedBefore, deadBefore);
    PurgeKeepsBuried(rows, candidates, |candidates|, now, cameras);
    assert candidates[..|candidates|] == candidates;
  }

  lemma PurgeListKeepsGates(rows: Rows, candidates: seq<(Id, State)>, closedBefore: Time, deadBefore: Time, now: Time,
                            log: Log)
    requires Shape(rows) && Gates(rows, log) && Ever(rows, log)
    requires CandidateList(rows, candidates, closedBefore, deadBefore)
    ensures Gates(PurgeAll(rows, candidates, now), log)
  {
    forall i | 0 <= i < |candidates|
      ensures SnapshotKnown(log, candidates[i].0, candidates[i].1)
      ensures candidates[i].1 in {Succeeded, Cancelled, DeadLetter}
    {
      assert Retired(rows[candidates[i].0], closedBefore, deadBefore);
    }
    GatesPurge(rows, candidates, now, log);
  }

  // ------------------------------------------------------------------------ revocation

  // Rows that are not revocations do not change.
  ghost predicate OnlyRevocations(rows: Rows, rows': Rows) {
    (forall q :: q in rows' && rows'[q].key != RevokeKey ==> q in rows && rows'[q] == rows[q]) &&
    (forall q :: q in rows && rows[q].key != RevokeKey ==> q in rows' && rows'[q] == rows[q])
  }

  ghost predicate RevocationChange(rows: Rows, rows': Rows, token: Token, newId: Id) {
    Shape(rows') && OnlyRevocations(rows, rows') && Evolves(rows, rows', Some(token), Some(newId))
  }

  lemma LeaseOneInPlace(rows: Rows, id: Id, token: Token, expires: Time, now: Time)
    requires Linked(rows) && id in rows && rows[id].key == RevokeKey
    ensures var rows' := Lease(rows, {id}, token, "auth-logout", expires, now);
            InPlace(rows, rows', Some(token)) && OnlyRevocations(rows, rows')
  {
    forall q | q in rows
      ensures RowStep(rows, rows[q], Lease(rows, {id}, token, "auth-logout", expires, now)[q], Some(token))
    {
      assert RowOk(rows, q);
    }
  }

  lemma EvolvesTwice(rows: Rows, mid: Rows, rows': Rows, token: Token, newId: Id)
    requires Evolves(rows, mid, None, Some(newId)) && Evolves(mid, rows', Some(token), None)
    requires forall q :: q in rows' && q !in rows ==> q in mid && mid[q].token.None? && !Closed(rows'[q])
    requires forall q :: q in rows' && q in mid && rows'[q].state == Succeeded ==> mid[q].state == Succeeded
    ensures Evolves(rows, rows', Some(token), Some(newId))
  {
    forall q | q in rows'
      ensures if q in rows then RowEvolves(rows[q], rows'[q], Some(token))
              else q == newId && !Closed(rows'[q]) && (rows'[q].token.Some? ==> rows'[q].token == Some(token))
    {
      assert q in mid && RowEvolves(mid[q], rows'[q], Some(token));
      if q in rows { assert RowEvolves(rows[q], mid[q], None); }
    }
  }

  lemma SameRowsSameOrder(rows: Rows, rows': Rows, k: Key)
    requires OnlyRevocations(rows, rows') && Ordered(rows, k) && k != RevokeKey
    ensures Ordered(rows', k)
  {
    forall a, b | Older(rows', a, b) && rows'[b].key == k && !Closed(rows'[a])
      ensures IsLatest(rows', k, b) && !Leased(rows'[b]) && (Closed(rows'[b]) || rows'[b].pred == Some(a))
    {
      assert Older(rows, a, b) && rows'[b] == rows[b];
    }
  }

  lemma KeptByRevocations(w: World, db': Db, token: Token, newId: Id)
    requires Inv(w) && token !in w.log.tokens && newId !in w.log.ids
    requires RevocationChange(w.db.rows, db'.rows, token, newId) && db'.cameras == w.db.cameras
    ensures Kept(w, db')
  {
    forall c ensures Ordered(db'.rows, CameraKey(c)) { SameRowsSameOrder(w.db.rows, db'.rows, CameraKey(c)); }
    SameRowsSameGraves(w.db.rows, db'.rows, w.db.cameras);
    ObserveKeeps(w.db, w.log, db', Some(token), Some(newId));
    SameRowsSameGates(w.db.rows, db'.rows, w.log, db'.cameras);
  }

  lemma SameRowsSameGraves(rows: Rows, rows': Rows, cameras: map<Id, Camera>)
    requires OnlyRevocations(rows, rows') && Buried(rows, cameras)
    ensures Buried(rows', cameras)
  {
    forall a, b | Older(rows', a, b) && rows'[b].key.CameraKey? && !Closed(rows'[a]) && Closed(rows'[b])
      ensures rows'[b].key.camera !in cameras
    {
      assert Older(rows, a, b);
    }
  }

  lemma SameRowsSameGates(rows: Rows, rows': Rows, log: Log, cameras: map<Id, Camera>)
    requires OnlyRevocations(rows, rows') && Gates(rows, log)
    ensures Gates(rows', Observe(log, rows, rows', cameras))
  {
    hide Observe;
    var log' := Observe(log, rows, rows', cameras);
    forall q | q in rows'
      ensures q in log'.pred && q in log'.dep
      ensures rows'[q].key != RevokeKey ==> Gated(rows'[q], log'.pred[q], log'.dep[q], log')
    {
      ObservedEdges(log, rows, rows', cameras, q);
      assert rows'[q].key != RevokeKey ==> Gated(rows[q], log.pred[q], log.dep[q], log);
    }
  }

  // begin_revocation: the queued row, then its lease.
  lemma BeginRowsChange(rows: Rows, generation: nat, newId: Id, token: Token, expires: Time, maxAttempts: nat,
                        now: Time)
    requires Shape(rows) && newId !in rows
    ensures RevocationChange(rows, BeginRows(rows, generation, newId, token, expires, maxAttempts, now), token, newId)
  {
    var queued := Enqueue(rows, Logout, SessionRevoke(generation), RevokeKey, maxAttempts, None, now, newId);
    var id := EnqueuedId(rows, RevokeKey, newId);
    RevocationQueued(rows, generation, newId, maxAttempts, now);
    assert Linked(queued);
    hide Shape, OnlyRevocations, Evolves, Enqueue, EnqueuedId;
    var rows' := Lease(queued, {id}, token, "auth-logout", expires, now);
    LeaseOneInPlace(queued, id, token, expires, now);
    InPlaceKeepsShape(queued, rows', Some(token));
    InPlaceEvolves(queued, rows', Some(token));
    EvolvesTwice(rows, queued, rows', token, newId);
    SameRevocations(rows, queued, rows');
  }

  lemma SameRevocations(rows: Rows, queued: Rows, rows': Rows)
    requires OnlyRevocations(rows, queued) && OnlyRevocations(queued, rows')
    ensures OnlyRevocations(rows, rows')
  {
  }

  lemma RevocationQueued(rows: Rows, generation: nat, newId: Id, maxAttempts: nat, now: Time)
    requires Shape(rows) && newId !in rows
    ensures var queued := Enqueue(rows, Logout, SessionRevoke(generation), RevokeKey, maxAttempts, None, now, newId);
      var id := EnqueuedId(rows, RevokeKey, newId);
      && Shape(queued) && OnlyRevocations(rows, queued) && Evolves(rows, queued, None, Some(newId))
      && id in queued && queued[id].key == RevokeKey
  {
    var queued := Enqueue(rows, Logout, SessionRevoke(generation), RevokeKey, maxAttempts, None, now, newId);
    EnqueueCases(rows, Logout, SessionRevoke(generation), RevokeKey, maxAttempts, None, now, newId);
    if EnqueuedId(rows, RevokeKey, newId) == newId {
      InsertKeepsShape(rows, queued, RevokeKey, newId);
      InsertEvolves(rows, queued, RevokeKey, newId);
    } else {
      InPlaceKeepsShape(rows, queued, None);
      InPlaceEvolves(rows, queued, None);
    }
  }

  lemma KeptByBegin(w: World, expected: nat, newId: Id, token: Token, lease: Time, maxAttempts: nat, now: Time)
    requires Inv(w) && newId !in w.log.ids && token !in w.log.tokens
    ensures Kept(w, BeginRevocation(w.db, expected, newId, token, lease, maxAttempts, now))
  {
    hide Kept, BeginRows, RevocationChange;
    var db' := BeginRevocation(w.db, expected, newId, token, lease, maxAttempts, now);
    if w.db.session == Some(Session(expected, Active)) {
      BeginRowsChange(w.db.rows, expected + 1, newId, token, now + lease, maxAttempts, now);
      assert db'.rows == BeginRows(w.db.rows, expected + 1, newId, token, now + lease, maxAttempts, now);
      KeptByRevocations(w, db', token, newId);
    } else {
      KeptByNothing(w, db');
    }
  }

  // ------------------------------------------------------------------------- every step

  predicate IsProducer(op: Op) {
    op.OpCreateCamera? || op.OpUpdateCamera? || op.OpDeleteCamera? || op.OpAddItem?
    || op.OpEnqueueRevocation? || op.OpBeginRevocation? || op.OpWriteSession? || op.OpSaveSession?
  }

  lemma ProducerKeeps(w: World, op: Op)
    requires Inv(w) && Enabled(w, op) && IsProducer(op)
    ensures Kept(w, Apply(w.db, op))
  {
    hide Kept, Observe, Gates, Remembered, Ordered, Buried;
    match op {
      case OpCreateCamera(c, config, limit, id, m, now) => KeptByCreate(w, c, config, limit, id, m, now);
      case OpUpdateCamera(c, changes, id, m, now) => KeptByUpdate(w, c, changes, id, m, now);
      case OpDeleteCamera(c, id, m, now) => KeptByDelete(w, c, id, m, now);
      case OpAddItem(item, id, m, now) => KeptByAdd(w, item, id, m, now);
      case OpSaveSession(now) =>
        CancelsInPlace(w.db.rows, 0, now);
        KeptInPlace(w, SaveSession(w.db, now), None);
      case OpEnqueueRevocation(g, id, m, now) =>
        KeptByEnqueue(w, EnqueueRevocation(w.db, g, id, m, now), Logout, SessionRevoke(g), RevokeKey, m, None, now, id);
      case OpBeginRevocation(g, id, token, lease, m, now) => KeptByBegin(w, g, id, token, lease, m, now);
      case OpWriteSession(_) => KeptByNothing(w, Apply(w.db, op));
    }
  }

  predicate IsSettle(op: Op) { op.OpComplete? || op.OpCompleteCamera? || op.OpCompleteRevocation? || op.OpFail? }

  lemma SettleKeeps(w: World, op: Op)
    requires Inv(w) && IsSettle(op)
    ensures Kept(w, Apply(w.db, op))
  {
    hide Kept, Inv;
    var db' := Apply(w.db, op);
    if db'.rows == w.db.rows {
      KeptByNothing(w, db');
    } else {
      KeptBySettle(w, db', op.id, op.token, op.lessee, op.OpFail? && op.permanent, op.now);
    }
  }

  lemma KeptByClaim(w: World, chosen: set<Id>, owner: string, limit: nat, filter: Option<Key>, token: Token,
                    expires: Time, now: Time)
    requires Inv(w) && ClaimSet(Expire(w.db.rows, now), chosen, now, filter, limit) && token !in w.log.tokens
    ensures Kept(w, w.db.(rows := Lease(Expire(w.db.rows, now), chosen, token, owner, expires, now)))
  {
    hide Kept;
    ClaimInPlace(w.db.rows, chosen, owner, limit, filter, token, expires, now);
    KeptInPlace(w, w.db.(rows := Lease(Expire(w.db.rows, now), chosen, token, owner, expires, now)), Some(token));
  }

  lemma KeptByDeadLetter(w: World, db': Db, id: Id, now: Time)
    requires Inv(w) && db'.cameras == w.db.cameras
    requires db'.rows == RetryDead(w.db.rows, id, now) || db'.rows == DiscardDead(w.db.rows, id, now)
    ensures Kept(w, db')
  {
    hide Kept, Observe, Gates, Remembered, Ordered, Buried;
    DeadLetterInPlace(w.db.rows, id, now);
    KeptInPlace(w, db', None);
  }

  lemma ConsumerKeeps(w: World, op: Op)
    requires Inv(w) && Enabled(w, op) && !IsProducer(op) && !IsSettle(op)
    ensures Kept(w, Apply(w.db, op))
  {
    hide Kept, Inv;
    match op {
      case OpClaim(chosen, lessee, limit, filter, token, lease, now) =>
        KeptByClaim(w, chosen, lessee, limit, filter, token, now + lease, now);
      case OpRetryDead(id, now) => KeptByDeadLetter(w, w.db.(rows := RetryDead(w.db.rows, id, now)), id, now);
      case OpDiscardDead(id, now) => KeptByDeadLetter(w, w.db.(rows := DiscardDead(w.db.rows, id, now)), id, now);
      case OpPurge(candidates, closedBefore, deadBefore, now) =>
        KeptByPurge(w, candidates, closedBefore, deadBefore, now);
    }
  }

  /** Every enabled transaction keeps the invariant. */
  lemma StepKeepsInv(w: World, op: Op)
    requires Inv(w) && Enabled(w, op)
    ensures Inv(Next(w, op))
  {
    if IsProducer(op) { ProducerKeeps(w, op); }
    else if IsSettle(op) { SettleKeeps(w, op); }
    else { ConsumerKeeps(w, op); }
  }

  lemma {:induction false} RunKeepsInv(w: World, ops: seq<Op>)
    requires Inv(w) && Runnable(w, ops)
    ensures Inv(Exec(w, ops))
    decreases |ops|
  {
    if ops != [] {
      StepKeepsInv(w, ops[0]);
      RunKeepsInv(Next(w, ops[0]), ops[1..]);
    }
  }

  lemma {:induction false} ExecSplit(w: World, ops: seq<Op>, more: seq<Op>)
    requires Runnable(w, ops + more)
    ensures Runnable(w, ops) && Runnable(Exec(w, ops), more) && Exec(w, ops + more) == Exec(Exec(w, ops), more)
    decreases |ops|
  {
    hide Enabled, Next;
    if ops == [] {
      assert ops + more == more;
    } else {
      assert (ops + more)[1..] == ops[1..] + more;
      ExecSplit(Next(w, ops[0]), ops[1..], more);
    }
  }

  lemma EmptyInv()
    ensures Inv(Empty)
  {
  }
}
