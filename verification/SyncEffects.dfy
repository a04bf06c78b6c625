/**
 What each transaction of the outbox leaves in the tables, said of the rows and
 columns themselves.
 */
module SyncEffects {
  import opened Prelude
  import opened CentralTables
  import opened SyncModel
  import opened SyncInvariant

  // Every row but this one is as it was.
  ghost predicate OthersKept(rows: Rows, rows': Rows, id: Id) {
    && (forall q :: q in rows' <==> q in rows || q == id)
    && (forall q :: q in rows && q != id ==> rows'[q] == rows[q])
  }

  // The newest row of the key waits and was never leased.
  ghost predicate NewestUnsent(rows: Rows, key: Key) {
    exists l :: IsLatest(rows, key, l) && rows[l].state == Pending && rows[l].lastAttempt.None?
  }

  // A row at the start of its life, due now.
  predicate StartsOver(r: Row, now: Time) {
    r.state == Pending && r.attempts == 0 && r.nextAt == now && r.lastAttempt.None? && r.failedAt.None?
  }

  // Row `id` is new: the next version above the newest row of its key, which it waits for.
  ghost predicate Appended(rows: Rows, r: Row, key: Key, dep: Option<Id>, maxAttempts: nat, now: Time) {
    && r.dep == dep && r.maxAttempts == maxAttempts && r.createdAt == now
    && r.token.None? && r.owner.None? && r.leaseExp.None? && r.completedAt.None?
    && match r.pred
       case None => r.version == 1 && forall q :: q in rows ==> rows[q].key != key
       case Some(p) => IsLatest(rows, key, p) && r.version == rows[p].version + 1
  }

  // Row `id` was the newest one, never leased, and keeps its place.
  ghost predicate Rewritten(rows: Rows, r: Row, id: Id, key: Key, dep: Option<Id>) {
    && IsLatest(rows, key, id) && rows[id].state == Pending && rows[id].lastAttempt.None?
    && r.version == rows[id].version && r.pred == rows[id].pred && r.createdAt == rows[id].createdAt
    && r.maxAttempts == rows[id].maxAttempts && r.dep == (if dep.Some? then dep else rows[id].dep)
    && r.token == rows[id].token && r.owner == rows[id].owner && r.leaseExp == rows[id].leaseExp
    && r.completedAt == rows[id].completedAt
  }

  // One row of the key was queued with this content, and it is the newest.
  ghost predicate Queued(rows: Rows, rows': Rows, endpoint: Endpoint, payload: Payload, key: Key, maxAttempts: nat,
                         dep: Option<Id>, now: Time, newId: Id, id: Id) {
    && OthersKept(rows, rows', id) && IsLatest(rows', key, id)
    && rows'[id].endpoint == endpoint && rows'[id].payload == payload && StartsOver(rows'[id], now)
    && (if NewestUnsent(rows, key) then Rewritten(rows, rows'[id], id, key, dep)
        else id == newId && Appended(rows, rows'[id], key, dep, maxAttempts, now))
  }

  lemma NewestIsUnique(rows: Rows, key: Key)
    requires Distinct(rows)
    ensures forall l: Id :: IsLatest(rows, key, l) <==> Latest(rows, key) == Some(l)
    ensures Latest(rows, key).None? ==> forall q :: q in rows ==> rows[q].key != key
  {
    LatestIs(rows, key);
    forall l: Id | IsLatest(rows, key, l) ensures Latest(rows, key) == Some(l) {
      LatestUnique(rows, key, l, Latest(rows, key).value);
    }
    hide Latest, Distinct;
  }

  lemma EnqueueQueues(rows: Rows, endpoint: Endpoint, payload: Payload, key: Key, maxAttempts: nat, dep: Option<Id>,
                      now: Time, newId: Id)
    requires Distinct(rows) && newId !in rows
    ensures Queued(rows, Enqueue(rows, endpoint, payload, key, maxAttempts, dep, now, newId), endpoint, payload, key,
                   maxAttempts, dep, now, newId, EnqueuedId(rows, key, newId))
  {
    NewestIsUnique(rows, key);
    hide Latest, Distinct, IsLatest, Queued, Coalesces, Coalesced, NewRow;
    var latest := Latest(rows, key);
    if latest.Some? && Coalesces(rows[latest.value]) {
      RewritingQueues(rows, latest.value, endpoint, payload, key, maxAttempts, dep, now, newId);
    } else {
      AppendingQueues(rows, latest, endpoint, payload, key, maxAttempts, dep, now, newId);
    }
  }

  lemma RewritingQueues(rows: Rows, l: Id, endpoint: Endpoint, payload: Payload, key: Key, maxAttempts: nat,
                        dep: Option<Id>, now: Time, newId: Id)
    requires IsLatest(rows, key, l) && Coalesces(rows[l]) && forall q: Id :: IsLatest(rows, key, q) ==> q == l
    ensures Queued(rows, rows[l := Coalesced(rows[l], endpoint, payload, dep, now)], endpoint, payload, key,
                   maxAttempts,
                   dep, now, newId, l)
  {
    assert NewestUnsent(rows, key);
  }

  lemma AppendingQueues(rows: Rows, latest: Option<Id>, endpoint: Endpoint, payload: Payload, key: Key,
                        maxAttempts: nat,
                        dep: Option<Id>, now: Time, newId: Id)
    requires newId !in rows && forall l: Id :: IsLatest(rows, key, l) <==> latest == Some(l)
    requires latest.Some? ==> latest.value in rows && !Coalesces(rows[latest.value])
    requires latest.None? ==> forall q :: q in rows ==> rows[q].key != key
    ensures var version := if latest.Some? then rows[latest.value].version + 1 else 1;
      Queued(rows, rows[newId := NewRow(endpoint, payload, key, version, latest, dep, maxAttempts, now)], endpoint,
             payload, key, maxAttempts, dep, now, newId, newId)
  {
    NoneUnsent(rows, latest, key);
    hide IsLatest, NewestUnsent;
    var version := if latest.Some? then rows[latest.value].version + 1 else 1;
    var r := NewRow(endpoint, payload, key, version, latest, dep, maxAttempts, now);
    if latest.Some? { NewRowAbove(rows, latest.value, r, key, newId); } else { FirstRow(rows, r, key, newId); }
  }

  lemma NoneUnsent(rows: Rows, latest: Option<Id>, key: Key)
    requires forall l: Id :: IsLatest(rows, key, l) ==> latest == Some(l)
    requires latest.Some? ==> latest.value in rows && !Coalesces(rows[latest.value])
    ensures !NewestUnsent(rows, key)
  {
  }

  lemma NewRowAbove(rows: Rows, l: Id, r: Row, key: Key, newId: Id)
    requires newId !in rows && IsLatest(rows, key, l) && r.key == key && r.version == rows[l].version + 1
    ensures IsLatest(rows[newId := r], key, newId)
  {
  }

  lemma FirstRow(rows: Rows, r: Row, key: Key, newId: Id)
    requires newId !in rows && r.key == key && forall q :: q in rows ==> rows[q].key != key
    ensures IsLatest(rows[newId := r], key, newId)
  {
  }

  // ------------------------------------------------------------------------- cameras

  ghost predicate OnlyCamera(cameras: map<Id, Camera>, cameras': map<Id, Camera>, camera: Id) {
    && (forall c :: c in cameras' <==> c in cameras || c == camera)
    && (forall c :: c in cameras && c != camera ==> cameras'[c] == cameras[c])
  }

  // The fields of the create request, which has no is_active, and of the analytics request.
  const CreateFields := {Name, StreamUrl, StreamType, LocationLabel, AnalyticsConfig, Zones}
  const AnalyticsFields := {AnalyticsConfig, Zones}

  // Exactly these fields of the configuration, with their values in it.
  ghost predicate TakenFrom(part: Config, config: Config, fields: set<Field>) {
    && (forall f :: f in part <==> f in config && f in fields)
    && (forall f :: f in part ==> part[f] == config[f])
  }

  lemma PostTakes(config: Config)
    ensures TakenFrom(config - {IsActive}, config, CreateFields)
  {
    assert forall f: Field :: f in CreateFields <==> f != IsActive;
  }

  ghost predicate CreateEffect(db: Db, db': Db, camera: Id, config: Config, maxAttempts: nat, now: Time, newId: Id,
                               id: Id) {
    && OnlyCamera(db.cameras, db'.cameras, camera) && db'.items == db.items && db'.session == db.session
    && db'.cameras[camera].serverId.None? && !db'.cameras[camera].synced && db'.cameras[camera].config == config
    && id in db'.rows && db'.rows[id].payload.CameraPost?
    && TakenFrom(db'.rows[id].payload.body, config, CreateFields)
    && Queued(db.rows, db'.rows, Cameras, CameraPost(camera, db'.rows[id].payload.body), CameraKey(camera), maxAttempts,
              None, now, newId, id)
  }

  lemma CreateTakesEffect(db: Db, camera: Id, config: Config, maxCameras: nat, newId: Id, maxAttempts: nat, now: Time)
    requires Distinct(db.rows) && newId !in db.rows && camera !in db.cameras
    ensures var db' := CreateCamera(db, camera, config, maxCameras, newId, maxAttempts, now);
      if |db.cameras| >= maxCameras then db' == db
      else exists id :: CreateEffect(db, db', camera, config, maxAttempts, now, newId, id)
  {
    var db' := CreateCamera(db, camera, config, maxCameras, newId, maxAttempts, now);
    var key, id := CameraKey(camera), EnqueuedId(db.rows, CameraKey(camera), newId);
    EnqueueQueues(db.rows, Cameras, CameraPost(camera, config - {IsActive}), key, maxAttempts, None, now, newId);
    PostTakes(config);
    hide Enqueue, EnqueuedId, Distinct, IsLatest, TakenFrom, NewestUnsent, Appended, Rewritten, StartsOver;
    if |db.cameras| < maxCameras { assert CreateEffect(db, db', camera, config, maxAttempts, now, newId, id); }
  }

  // The central service does not know the camera and its POST waits, never leased.
  ghost predicate UnsentPost(db: Db, camera: Id) {
    && camera in db.cameras && db.cameras[camera].serverId.None?
    && exists l :: IsLatest(db.rows, CameraKey(camera), l) && db.rows[l].state == Pending
                   && db.rows[l].lastAttempt.None? && db.rows[l].payload.CameraPost?
  }

  predicate ChangesAnalytics(changes: Config) { AnalyticsConfig in changes || Zones in changes }

  // What the newest row carries of an update: all but `is_active` in an unsent POST; else a PATCH of the
  // changed fields, with analytics configuration and zones together in a part of their own if either changed.
  ghost predicate CarriesUpdate(r: Row, camera: Id, config: Config, changes: Config, unsent: bool) {
    match r.payload
    case CameraPost(c, body) =>
      unsent && c == camera && r.endpoint == Cameras && TakenFrom(body, config, CreateFields)
    case CameraPatch(c, body, analytics) =>
      && !unsent && c == camera && r.endpoint == CameraAt(camera)
      && TakenFrom(body, config, changes.Keys - AnalyticsFields)
      && (analytics.Some? <==> ChangesAnalytics(changes))
      && (analytics.Some? ==> TakenFrom(analytics.value, config, AnalyticsFields))
    case _ => false
  }

  // The camera's new configuration: the changed fields with their new values, the others as before.
  ghost predicate Overlaid(config': Config, config: Config, changes: Config) {
    && (forall f :: f in config' <==> f in config || f in changes)
    && (forall f :: f in changes ==> config'[f] == changes[f])
    && (forall f :: f in config && f !in changes ==> config'[f] == config[f])
  }

  ghost predicate UpdateEffect(db: Db, db': Db, camera: Id, changes: Config, maxAttempts: nat, now: Time, newId: Id,
                               id: Id) {
    && camera in db.cameras && OnlyCamera(db.cameras, db'.cameras, camera)
    && db'.items == db.items && db'.session == db.session
    && db'.cameras[camera].serverId == db.cameras[camera].serverId && !db'.cameras[camera].synced
    && Overlaid(db'.cameras[camera].config, db.cameras[camera].config, changes)
    && id in db'.rows && CarriesUpdate(db'.rows[id], camera, db'.cameras[camera].config, changes,
                                       UnsentPost(db, camera))
    && Queued(db.rows, db'.rows, db'.rows[id].endpoint, db'.rows[id].payload, CameraKey(camera), maxAttempts, None, now,
              newId, id)
  }

  lemma UpdateTakesEffect(db: Db, camera: Id, changes: Config, newId: Id, maxAttempts: nat, now: Time)
    requires Distinct(db.rows) && newId !in db.rows
    ensures var db' := UpdateCamera(db, camera, changes, newId, maxAttempts, now);
      if camera !in db.cameras then db' == db
      else exists id :: UpdateEffect(db, db', camera, changes, maxAttempts, now, newId, id)
  {
    if camera in db.cameras {
      var db' := UpdateCamera(db, camera, changes, newId, maxAttempts, now);
      var key, id := CameraKey(camera), EnqueuedId(db.rows, CameraKey(camera), newId);
      var (endpoint, payload) := UpdatePayload(db, camera, changes);
      EnqueueQueues(db.rows, endpoint, payload, key, maxAttempts, None, now, newId);
      PayloadCarries(db, camera, changes, db'.rows[id]);
      hide Enqueue, EnqueuedId, Distinct, UpdatePayload, CarriesUpdate, UnsentPost;
      assert UpdateEffect(db, db', camera, changes, maxAttempts, now, newId, id);
    }
  }

  lemma PayloadCarries(db: Db, camera: Id, changes: Config, r: Row)
    requires camera in db.cameras && Distinct(db.rows)
    requires (r.endpoint, r.payload) == UpdatePayload(db, camera, changes)
    ensures CarriesUpdate(r, camera, db.cameras[camera].config + changes, changes, UnsentPost(db, camera))
  {
    var key := CameraKey(camera);
    NewestIsUnique(db.rows, key);
    PostTakes(db.cameras[camera].config + changes);
    hide Latest, Distinct;
  }

  // A row that waits is cancelled.
  predicate CancelledNow(r: Row, r': Row, now: Time) {
    r' == r.(state := r'.state, completedAt := r'.completedAt) && r'.state == Cancelled && r'.completedAt == Some(now)
  }

  // Of an unsent create: the camera's newest row and what depends on it, if they wait.
  ghost predicate Withdrawn(rows: Rows, rows': Rows, camera: Id, now: Time) {
    exists l :: IsLatest(rows, CameraKey(camera), l) && WithdrawnAt(rows, rows', l, now)
  }

  ghost predicate WithdrawnAt(rows: Rows, rows': Rows, l: Id, now: Time) {
    && (forall q :: q in rows' <==> q in rows)
    && (forall q :: q in rows ==>
          if (q == l || rows[q].dep == Some(l)) && (rows[q].state == Pending || rows[q].state == RetryWait)
          then CancelledNow(rows[q], rows'[q], now) else rows'[q] == rows[q])
  }

  ghost predicate Withdraws(db: Db, camera: Id) {
    && camera in db.cameras && db.cameras[camera].serverId.None?
    && exists l :: IsLatest(db.rows, CameraKey(camera), l)
                   && (db.rows[l].state == Pending || db.rows[l].state == RetryWait)
  }

  ghost predicate DeleteEffect(db: Db, db': Db, camera: Id, maxAttempts: nat, now: Time, newId: Id) {
    && camera in db.cameras && db'.session == db.session
    && (forall c :: c in db'.cameras <==> c in db.cameras && c != camera)
    && (forall c :: c in db'.cameras ==> db'.cameras[c] == db.cameras[c])
    && (forall k :: k in db'.items <==> k in db.items && db.items[k].camera != camera)
    && (forall k :: k in db'.items ==> db'.items[k] == db.items[k])
    && (if Withdraws(db, camera) then Withdrawn(db.rows, db'.rows, camera, now)
        else exists id :: Queued(db.rows, db'.rows, CameraAt(camera), CameraDelete(camera), CameraKey(camera),
                                 maxAttempts, None, now, newId, id))
  }

  lemma DeleteTakesEffect(db: Db, camera: Id, newId: Id, maxAttempts: nat, now: Time)
    requires Distinct(db.rows) && newId !in db.rows
    ensures var db' := DeleteCamera(db, camera, newId, maxAttempts, now);
      if camera !in db.cameras then db' == db else DeleteEffect(db, db', camera, maxAttempts, now, newId)
  {
    var key := CameraKey(camera);
    var rows' := DeleteCamera(db, camera, newId, maxAttempts, now).rows;
    EnqueueQueues(db.rows, CameraAt(camera), CameraDelete(camera), key, maxAttempts, None, now, newId);
    NewestIsUnique(db.rows, key);
    hide Latest, Enqueue, EnqueuedId, Queued, Distinct, IsLatest;
    if Latest(db.rows, key).Some? { WithdrawalWithdraws(db.rows, Latest(db.rows, key).value, now); }
    hide CancelWithDependents, WithdrawnAt;
  }

  lemma WithdrawalWithdraws(rows: Rows, l: Id, now: Time)
    ensures WithdrawnAt(rows, CancelWithDependents(rows, l, now), l, now)
  {
  }

  // ------------------------------------------------------------------------ analytics

  ghost predicate OnlyItem(items: map<Key, LocalItem>, items': map<Key, LocalItem>, k: Key) {
    && (forall j :: j in items' <==> j in items || j == k)
    && (forall j :: j in items && j != k ==> items'[j] == items[j])
  }

  // The table of the item and the endpoint it is sent to.
  predicate BelongsTo(item: Item, key: Key, endpoint: Endpoint) {
    match item
    case Event(id, _, _, _, _, _) => key == EventKey(id) && endpoint == SyncEvents
    case Alert(id, _, _, _, _, _, _) => key == AlertKey(id) && endpoint == SyncAlerts
    case Count(id, _, _, _, _) => key == CountKey(id) && endpoint == SyncPeopleCount
  }

  // The item's camera exists, is known to the central service or has a row to wait for, and the item is new here.
  ghost predicate MayAdd(db: Db, item: Item, key: Key) {
    && item.camera in db.cameras && key !in db.items
    && (db.cameras[item.camera].serverId.Some? || exists q :: q in db.rows && db.rows[q].key == CameraKey(item.camera))
  }

  // Waits for the camera's oldest row until the central service knows the camera.
  ghost predicate WaitsForCamera(db: Db, camera: Id, dep: Option<Id>) {
    camera in db.cameras &&
    if db.cameras[camera].serverId.Some? then dep.None? else dep.Some? && IsOldest(db.rows, CameraKey(camera),
                                                                                   dep.value)
  }

  ghost predicate AddEffect(db: Db, db': Db, item: Item, maxAttempts: nat, now: Time, newId: Id, id: Id, key: Key,
                            endpoint: Endpoint, dep: Option<Id>) {
    && BelongsTo(item, key, endpoint) && WaitsForCamera(db, item.camera, dep)
    && db'.cameras == db.cameras && db'.session == db.session
    && OnlyItem(db.items, db'.items, key) && db'.items[key].camera == item.camera && !db'.items[key].synced
    && Queued(db.rows, db'.rows, endpoint, Deliver(item), key, maxAttempts, dep, now, newId, id)
  }

  lemma DependencyWaits(db: Db, item: Item)
    ensures var d := CameraDependency(db, item.camera);
      && (MayAdd(db, item, ItemKey(item)) <==> !d.NoCamera? && !d.NoRecord? && ItemKey(item) !in db.items)
      && (!d.NoCamera? && !d.NoRecord? ==> WaitsForCamera(db, item.camera, if d.On? then Some(d.id) else None))
  {
    LatestIs(db.rows, CameraKey(item.camera));
    hide Latest;
  }

  lemma ItemBelongs(item: Item)
    ensures BelongsTo(item, ItemKey(item), ItemEndpoint(item))
  {
  }

  lemma AddTakesEffect(db: Db, item: Item, newId: Id, maxAttempts: nat, now: Time)
    requires Distinct(db.rows) && newId !in db.rows
    ensures var db' := AddItem(db, item, newId, maxAttempts, now);
      if MayAdd(db, item, ItemKey(item))
      then exists id, dep :: AddEffect(db, db', item, maxAttempts, now, newId, id, ItemKey(item), ItemEndpoint(item),
                                       dep)
      else db' == db
  {
    hide Enqueue, EnqueuedId, CameraDependency, Queued, Distinct, WaitsForCamera, MayAdd, BelongsTo, ItemKey,
      ItemEndpoint;
    ItemBelongs(item);
    DependencyWaits(db, item);
    var d := CameraDependency(db, item.camera);
    var dep := if d.On? then Some(d.id) else None;
    var id := EnqueuedId(db.rows, ItemKey(item), newId);
    EnqueueQueues(db.rows, ItemEndpoint(item), Deliver(item), ItemKey(item), maxAttempts, dep, now, newId);
    var db' := AddItem(db, item, newId, maxAttempts, now);
    if MayAdd(db, item, ItemKey(item)) {
      assert AddEffect(db, db', item, maxAttempts, now, newId, id, ItemKey(item), ItemEndpoint(item), dep);
    }
  }

  // --------------------------------------------------------------------------- leases

  predicate LeaseOver(r: Row, now: Time) { r.state == Inflight && r.leaseExp.Some? && r.leaseExp.value < now }

  predicate IsIn(rows: Rows, q: Id, state: State) { q in rows && rows[q].state == state }

  // Waiting and due, or left behind by a lease that ran out; nothing it waits for is open.
  predicate MayClaim(rows: Rows, q: Id, now: Time, filter: Option<Key>) {
    && q in rows
    && (LeaseOver(rows[q], now)
        || ((rows[q].state == Pending || rows[q].state == RetryWait) && rows[q].nextAt <= now))
    && (filter.Some? ==> rows[q].key == filter.value)
    && (rows[q].pred.None? || IsIn(rows, rows[q].pred.value, Succeeded) || IsIn(rows, rows[q].pred.value, Cancelled))
    && (rows[q].dep.None? || IsIn(rows, rows[q].dep.value, Succeeded))
  }

  predicate SameContent(r: Row, r': Row) {
    && r'.endpoint == r.endpoint && r'.payload == r.payload && r'.key == r.key && r'.version == r.version
    && r'.pred == r.pred && r'.dep == r.dep && r'.maxAttempts == r.maxAttempts && r'.createdAt == r.createdAt
  }

  predicate Unleased(r: Row) { r.token.None? && r.owner.None? && r.leaseExp.None? }

  // Leased with this token; one more attempt.
  predicate LeasedNow(r: Row, r': Row, token: Token, lessee: string, lease: Time, now: Time) {
    && SameContent(r, r') && r'.attempts == r.attempts + 1 && r'.state == Inflight
    && r'.token == Some(token) && r'.owner == Some(lessee) && r'.leaseExp == Some(now + lease)
    && r'.lastAttempt == Some(now) && r'.failedAt == r.failedAt && r'.completedAt == r.completedAt
    && r'.nextAt == (if LeaseOver(r, now) then now else r.nextAt)
  }

  // Given back by a lease that ran out; no attempt is counted or taken back.
  predicate GivenBack(r: Row, r': Row, now: Time) {
    && SameContent(r, r') && r'.attempts == r.attempts && r'.state == RetryWait && Unleased(r') && r'.nextAt == now
    && r'.lastAttempt == r.lastAttempt && r'.failedAt == r.failedAt && r'.completedAt == r.completedAt
  }

  // created_at, then version, then id
  predicate GoesBefore(a: Row, i: Id, b: Row, j: Id) {
    a.createdAt < b.createdAt || (a.createdAt == b.createdAt && (a.version < b.version ||
                                                                 (a.version == b.version && i < j)))
  }

  // The first `limit` rows that may be claimed.
  ghost predicate FirstClaims(rows: Rows, chosen: set<Id>, limit: nat, filter: Option<Key>, now: Time) {
    && |chosen| <= limit
    && (forall q {:trigger MayClaim(rows, q, now, filter)} :: q in chosen ==> MayClaim(rows, q, now, filter))
    && (forall q {:trigger MayClaim(rows, q, now, filter)} :: MayClaim(rows, q, now, filter) && q !in chosen ==>
          |chosen| == limit && forall c :: c in chosen ==> c in rows && GoesBefore(rows[c], c, rows[q], q))
  }

  ghost predicate ClaimEffect(rows: Rows, rows': Rows, chosen: set<Id>, lessee: string, token: Token, lease: Time,
                              now: Time) {
    && (forall q :: q in rows' <==> q in rows)
    && (forall q :: q in rows ==>
          if q in chosen then LeasedNow(rows[q], rows'[q], token, lessee, lease, now)
          else if LeaseOver(rows[q], now) then GivenBack(rows[q], rows'[q], now)
          else rows'[q] == rows[q])
  }

  lemma ClaimableIff(rows: Rows, q: Id, now: Time, filter: Option<Key>)
    ensures Claimable(Expire(rows, now), q, now, filter) <==> MayClaim(rows, q, now, filter)
  {
  }

  // Returning expired leases changes neither versions nor creation times.
  lemma ChosenAreFirst(rows: Rows, chosen: set<Id>, limit: nat, filter: Option<Key>, now: Time)
    requires ClaimSet(Expire(rows, now), chosen, now, filter, limit)
    requires forall q :: Claimable(Expire(rows, now), q, now, filter) <==> MayClaim(rows, q, now, filter)
    ensures FirstClaims(rows, chosen, limit, filter, now)
  {
    hide PredGate, DepGate, IsIn, LeaseOver;
    var expired := Expire(rows, now);
    forall q | q in chosen ensures MayClaim(rows, q, now, filter) { assert Claimable(expired, q, now, filter); }
    forall q | MayClaim(rows, q, now, filter) && q !in chosen
      ensures |chosen| == limit && forall c :: c in chosen ==> c in rows && GoesBefore(rows[c], c, rows[q], q)
    {
      assert Claimable(expired, q, now, filter);
      assert forall c :: c in chosen ==> c in expired && Precedes(expired, c, q);
    }
  }

  lemma RowsClaimed(rows: Rows, chosen: set<Id>, lessee: string, filter: Option<Key>, token: Token, lease: Time,
                    now: Time)
    requires forall q :: q in chosen ==> MayClaim(rows, q, now, filter)
    ensures ClaimEffect(rows, Lease(Expire(rows, now), chosen, token, lessee, now + lease, now), chosen, lessee, token,
                        lease, now)
  {
    var rows' := Lease(Expire(rows, now), chosen, token, lessee, now + lease, now);
    forall q | q in rows && q in chosen ensures LeasedNow(rows[q], rows'[q], token, lessee, lease, now) {
      assert MayClaim(rows, q, now, filter);
    }
  }

  lemma ClaimTakesEffect(rows: Rows, chosen: set<Id>, lessee: string, limit: nat, filter: Option<Key>, token: Token,
                         lease: Time, now: Time)
    requires ClaimSet(Expire(rows, now), chosen, now, filter, limit)
    ensures FirstClaims(rows, chosen, limit, filter, now)
    ensures ClaimEffect(rows, Lease(Expire(rows, now), chosen, token, lessee, now + lease, now), chosen, lessee, token,
                        lease, now)
  {
    hide Claimable, MayClaim, ClaimSet, Expire, Lease, ClaimEffect;
    forall q ensures Claimable(Expire(rows, now), q, now, filter) <==> MayClaim(rows, q, now, filter) {
      ClaimableIff(rows, q, now, filter);
    }
    ChosenAreFirst(rows, chosen, limit, filter, now);
    RowsClaimed(rows, chosen, lessee, filter, token, lease, now);
  }

  // ---------------------------------------------------------------------- settlements

  // The token is the row's and its lease has not run out.
  predicate HeldBy(rows: Rows, id: Id, token: Token, lessee: string, now: Time) {
    && IsIn(rows, id, Inflight) && rows[id].token == Some(token) && rows[id].owner == Some(lessee)
    && rows[id].leaseExp.Some? && now < rows[id].leaseExp.value
  }

  // The one row succeeds and its lease is gone.
  ghost predicate Succeeds(rows: Rows, rows': Rows, id: Id, now: Time) {
    && id in rows && OthersKept(rows, rows', id)
    && SameContent(rows[id], rows'[id]) && Unleased(rows'[id])
    && rows'[id].state == Succeeded && rows'[id].completedAt == Some(now)
    && rows'[id].attempts == rows[id].attempts && rows'[id].nextAt == rows[id].nextAt
    && rows'[id].lastAttempt == rows[id].lastAttempt && rows'[id].failedAt == rows[id].failedAt
  }

  ghost predicate CompleteEffect(db: Db, db': Db, id: Id, now: Time) {
    && Succeeds(db.rows, db'.rows, id, now) && db'.cameras == db.cameras && db'.session == db.session
    && var k := db.rows[id].key;
       if k !in db.items then db'.items == db.items
       else OnlyItem(db.items, db'.items, k) && db'.items[k].synced && db'.items[k].camera == db.items[k].camera
  }

  lemma CompleteTakesEffect(db: Db, id: Id, token: Token, lessee: string, now: Time)
    ensures var db' := Complete(db, id, token, lessee, now);
      if HeldBy(db.rows, id, token, lessee, now) then CompleteEffect(db, db', id, now) else db' == db
  {
  }

  lemma OwnedIff(rows: Rows, id: Id, token: Token, lessee: string, now: Time)
    ensures Owned(rows, id, token, lessee, now) <==> HeldBy(rows, id, token, lessee, now)
  {
  }

  // No other camera has the identity the central service gave this one.
  ghost predicate IdentityFree(cameras: map<Id, Camera>, local: Id, server: Id) {
    local in cameras ==> forall c :: c in cameras && c != local ==> cameras[c].serverId != Some(server)
  }

  ghost predicate CompleteCameraEffect(db: Db, db': Db, id: Id, local: Id, server: Id, now: Time) {
    && Succeeds(db.rows, db'.rows, id, now) && db'.items == db.items && db'.session == db.session
    && if local !in db.cameras then db'.cameras == db.cameras
       else OnlyCamera(db.cameras, db'.cameras, local) && db'.cameras[local].serverId == Some(server)
            && db'.cameras[local].synced && db'.cameras[local].config == db.cameras[local].config
  }

  lemma CompleteCameraTakesEffect(db: Db, id: Id, token: Token, lessee: string, local: Id, server: Id, now: Time)
    ensures var db' := CompleteCamera(db, id, token, lessee, local, server, now);
      if HeldBy(db.rows, id, token, lessee, now) && IdentityFree(db.cameras, local, server)
      then CompleteCameraEffect(db, db', id, local, server, now) else db' == db
    ensures ServerIdTaken(db.cameras, local, server) <==> !IdentityFree(db.cameras, local, server)
  {
  }

  ghost predicate CompleteRevocationEffect(db: Db, db': Db, id: Id, generation: nat, now: Time) {
    && Succeeds(db.rows, db'.rows, id, now) && db'.items == db.items && db'.cameras == db.cameras
    && db'.session == (if db.session.Some? && db.session.value.generation == generation
                          && db.session.value.status == RevocationPending
                       then None else db.session)
  }

  lemma CompleteRevocationTakesEffect(db: Db, id: Id, token: Token, lessee: string, generation: nat, now: Time)
    ensures var db' := CompleteRevocation(db, id, token, lessee, generation, now);
      if HeldBy(db.rows, id, token, lessee, now) then CompleteRevocationEffect(db, db', id, generation, now)
      else db' == db
  {
  }

  // Seconds until the retry after so many attempts; from eight on the same.
  const DELAYS: seq<int> := [1, 2, 4, 8, 16, 32, 64, 128, 256]

  predicate DelayOf(attempts: nat, delay: Time) {
    delay == (if attempts <= 8 then DELAYS[attempts] else DELAYS[8]) * 1_000_000
  }

  ghost predicate FailEffect(rows: Rows, rows': Rows, id: Id, permanent: bool, now: Time) {
    && id in rows && OthersKept(rows, rows', id)
    && SameContent(rows[id], rows'[id]) && Unleased(rows'[id]) && rows'[id].attempts == rows[id].attempts
    && rows'[id].lastAttempt == rows[id].lastAttempt && rows'[id].completedAt == rows[id].completedAt
    && DelayOf(rows[id].attempts, rows'[id].nextAt - now)
    && if permanent || rows[id].attempts >= rows[id].maxAttempts
       then rows'[id].state == DeadLetter && rows'[id].failedAt == Some(now)
       else rows'[id].state == RetryWait && rows'[id].failedAt.None?
  }

  lemma {:induction false} PowersOfTwo(n: nat)
    requires n <= 8
    ensures Pow2(n) == DELAYS[n]
  {
    if n > 0 { PowersOfTwo(n - 1); }
  }

  lemma DelayIsTabled(attempts: nat)
    ensures DelayOf(attempts, RetryDelay(attempts))
  {
    PowersOfTwo(Min(attempts, 8));
  }

  lemma FailTakesEffect(rows: Rows, id: Id, token: Token, lessee: string, permanent: bool, now: Time)
    ensures var rows' := Fail(rows, id, token, lessee, permanent, now);
      if HeldBy(rows, id, token, lessee, now) then FailEffect(rows, rows', id, permanent, now) else rows' == rows
  {
    if id in rows { DelayIsTabled(rows[id].attempts); }
    hide RetryDelay, DelayOf;
  }

  // A dead letter starts over, its earlier attempts forgotten but not that it was leased.
  ghost predicate RetryEffect(rows: Rows, rows': Rows, id: Id, now: Time) {
    && id in rows && OthersKept(rows, rows', id) && SameContent(rows[id], rows'[id])
    && rows'[id].state == Pending && rows'[id].attempts == 0 && rows'[id].nextAt == now && rows'[id].failedAt.None?
    && rows'[id].lastAttempt == rows[id].lastAttempt && rows'[id].completedAt == rows[id].completedAt
    && rows'[id].token == rows[id].token && rows'[id].owner == rows[id].owner && rows'[id].leaseExp == rows[id].leaseExp
  }

  lemma DeadLetterTakesEffect(rows: Rows, id: Id, now: Time)
    ensures if IsIn(rows, id, DeadLetter) then RetryEffect(rows, RetryDead(rows, id, now), id, now)
            else RetryDead(rows, id, now) == rows
    ensures if IsIn(rows, id, DeadLetter)
            then OthersKept(rows, DiscardDead(rows, id, now), id)
                 && CancelledNow(rows[id], DiscardDead(rows, id, now)[id], now)
            else DiscardDead(rows, id, now) == rows
  {
  }

  // ------------------------------------------------------------------------- sessions

  // A new login is active under the next generation, and open or dead revocations are cancelled.
  ghost predicate SaveEffect(db: Db, db': Db, now: Time) {
    && db'.cameras == db.cameras && db'.items == db.items
    && db'.session.Some? && db'.session.value.status == Active
    && db'.session.value.generation == (if db.session.Some? then db.session.value.generation + 1 else 1)
    && (forall q :: q in db'.rows <==> q in db.rows)
    && forall q :: q in db.rows ==>
         if db.rows[q].key == RevokeKey && db.rows[q].state in {Pending, RetryWait, DeadLetter}
         then CancelledNow(db.rows[q], db'.rows[q], now) else db'.rows[q] == db.rows[q]
  }

  lemma SaveTakesEffect(db: Db, now: Time)
    ensures SaveEffect(db, SaveSession(db, now), now)
  {
  }

  // The session of this generation turns to revocation, whose row is queued and leased at once.
  ghost predicate BeginEffect(db: Db, db': Db, generation: nat, token: Token, lease: Time, maxAttempts: nat, now: Time,
                              newId: Id, id: Id, queued: Rows) {
    && db'.cameras == db.cameras && db'.items == db.items
    && db'.session == Some(Session(generation + 1, RevocationPending))
    && Queued(db.rows, queued, Logout, SessionRevoke(generation + 1), RevokeKey, maxAttempts, None, now, newId, id)
    && OthersKept(queued, db'.rows, id) && LeasedNow(queued[id], db'.rows[id], token, "auth-logout", lease, now)
  }

  lemma BeginTakesEffect(db: Db, generation: nat, newId: Id, token: Token, lease: Time, maxAttempts: nat, now: Time)
    requires Distinct(db.rows) && newId !in db.rows
    ensures var db' := BeginRevocation(db, generation, newId, token, lease, maxAttempts, now);
      if db.session.Some? && db.session.value.generation == generation && db.session.value.status == Active
      then exists id, queued :: BeginEffect(db, db', generation, token, lease, maxAttempts, now, newId, id, queued)
      else db' == db
  {
    var db' := BeginRevocation(db, generation, newId, token, lease, maxAttempts, now);
    if db.session.Some? && db.session.value.generation == generation && db.session.value.status == Active {
      var id := EnqueuedId(db.rows, RevokeKey, newId);
      var queued := Enqueue(db.rows, Logout, SessionRevoke(generation + 1), RevokeKey, maxAttempts, None, now, newId);
      EnqueueQueues(db.rows, Logout, SessionRevoke(generation + 1), RevokeKey, maxAttempts, None, now, newId);
      hide Enqueue, EnqueuedId, Distinct;
      FirstLease(queued, id, token, lease, now);
      hide IsLatest, NewestUnsent, Appended, Rewritten, Lease, LeasedNow;
      assert BeginEffect(db, db', generation, token, lease, maxAttempts, now, newId, id, queued);
    }
  }

  lemma FirstLease(rows: Rows, id: Id, token: Token, lease: Time, now: Time)
    requires id in rows && rows[id].state == Pending
    ensures var rows' := Lease(rows, {id}, token, "auth-logout", now + lease, now);
      OthersKept(rows, rows', id) && LeasedNow(rows[id], rows'[id], token, "auth-logout", lease, now)
  {
  }

  // ---------------------------------------------------------------------------- purge

  // Closed, or dead, for longer than is kept.
  predicate IsOld(r: Row, closedBefore: Time, deadBefore: Time) {
    || ((r.state == Succeeded || r.state == Cancelled) && r.completedAt.Some? && r.completedAt.value < closedBefore)
    || (r.state == DeadLetter && r.failedAt.Some? && r.failedAt.value < deadBefore)
  }

  function Without(edge: Option<Id>, gone: set<Id>): Option<Id> {
    if edge.Some? && edge.value in gone then None else edge
  }

  // The row waits for a dead letter that goes, through any chain, or depends on a cancelled row that goes.
  ghost predicate Orphaned(rows: Rows, gone: set<Id>, q: Id) {
    exists d :: d in gone && OrphanedBy(rows, q, d)
  }

  ghost predicate OrphanedBy(rows: Rows, q: Id, d: Id) {
    && d in rows && q in rows
    && ((rows[d].state == DeadLetter && Reaches(rows, q, d))
        || (rows[d].state == Cancelled && rows[q].dep == Some(d)))
  }

  // The row points at a dead letter that goes, or depends on a cancelled row that goes.
  ghost predicate PointsAtLost(rows: Rows, gone: set<Id>, q: Id) {
    && q in rows
    && ((rows[q].pred.Some? && rows[q].pred.value in gone && IsIn(rows, rows[q].pred.value, DeadLetter))
        || (rows[q].dep.Some? && rows[q].dep.value in gone
            && (IsIn(rows, rows[q].dep.value, DeadLetter) || IsIn(rows, rows[q].dep.value, Cancelled))))
  }

  // A surviving row loses the edges to rows that are gone; it is cancelled only if it was orphaned
  // and not in flight, and certainly if it pointed at a lost row.
  ghost predicate Survives(rows: Rows, r': Row, gone: set<Id>, q: Id, now: Time) {
    && q in rows
    && var kept := rows[q].(pred := Without(rows[q].pred, gone), dep := Without(rows[q].dep, gone));
       || (r' == kept && (PointsAtLost(rows, gone, q) ==> rows[q].state == Inflight))
       || (r' == Released(kept).(state := Cancelled, completedAt := Some(now)) && Orphaned(rows, gone, q)
           && rows[q].state != Inflight)
  }

  ghost predicate PurgeEffect(rows: Rows, rows': Rows, gone: set<Id>, now: Time) {
    && (forall q :: q in rows' <==> q in rows && q !in gone)
    && (forall q :: q in rows' ==> Survives(rows, rows'[q], gone, q, now))
  }

  function Ids(candidates: seq<(Id, State)>): set<Id> { set i | 0 <= i < |candidates| :: candidates[i].0 }

  // A snapshot of distinct rows with their states.
  ghost predicate Snapshot(rows: Rows, candidates: seq<(Id, State)>) {
    && (forall i :: 0 <= i < |candidates| ==> IsIn(rows, candidates[i].0, candidates[i].1))
    && (forall i, j :: 0 <= i < j < |candidates| ==> candidates[i].0 != candidates[j].0)
  }

  // Edges only disappear, so what still reaches a row did at first.
  lemma ReachedBefore(rows: Rows, mid: Rows, path: seq<Id>)
    requires IsPath(mid, path) && forall q, p :: Edge(mid, q, p) ==> Edge(rows, q, p)
    ensures IsPath(rows, path)
  {
    forall i | 0 <= i < |path| - 1 ensures Edge(rows, path[i], path[i + 1]) { assert Edge(mid, path[i], path[i + 1]); }
  }

  lemma ReachesBefore(rows: Rows, mid: Rows, q: Id, d: Id)
    requires Reaches(mid, q, d) && forall q, p :: Edge(mid, q, p) ==> Edge(rows, q, p)
    ensures Reaches(rows, q, d)
  {
    var path :| IsPath(mid, path) && |path| >= 2 && path[0] == q && path[|path| - 1] == d;
    ReachedBefore(rows, mid, path);
  }

  lemma EdgeReaches(rows: Rows, q: Id, d: Id)
    requires Edge(rows, q, d)
    ensures Reaches(rows, q, d)
  {
    var path := [q, d];
    assert IsPath(rows, path) && path[0] == q && path[|path| - 1] == d;
  }

  lemma PurgedEdges(rows: Rows, mid: Rows, gone: set<Id>, now: Time)
    requires PurgeEffect(rows, mid, gone, now)
    ensures forall q, p :: Edge(mid, q, p) ==> Edge(rows, q, p)
  {
    forall q, p | Edge(mid, q, p) ensures Edge(rows, q, p) { assert Survives(rows, mid[q], gone, q, now); }
  }

  // One more row is purged.
  lemma OneMorePurged(rows: Rows, mid: Rows, gone: set<Id>, id: Id, state: State, now: Time, q: Id)
    requires PurgeEffect(rows, mid, gone, now) && id !in gone && IsIn(rows, id, state)
    requires q in rows && q !in gone && q != id
    ensures var rows' := PurgeOne(mid, id, state, now); q in rows' && Survives(rows, rows'[q], gone + {id}, q, now)
  {
    assert Survives(rows, mid[q], gone, q, now);
    PurgedEdges(rows, mid, gone, now);
    if Edge(mid, q, id) { EdgeReaches(mid, q, id); }
    if state == DeadLetter && Reaches(mid, q, id) { ReachesBefore(rows, mid, q, id); }
    hide Reaches, PurgeEffect;
    if Orphaned(rows, gone, q) {
      var d :| d in gone && OrphanedBy(rows, q, d);
      assert d in gone + {id};
    }
  }

  lemma {:induction false} PurgeTakesEffect(rows: Rows, candidates: seq<(Id, State)>, now: Time)
    requires Snapshot(rows, candidates)
    ensures PurgeEffect(rows, PurgeAll(rows, candidates, now), Ids(candidates), now)
    decreases |candidates|
  {
    hide PurgeOne, IsIn, Snapshot;
    if candidates == [] {
      assert Ids(candidates) == {};
    } else {
      var n := |candidates| - 1;
      var mid, gone := PurgeAll(rows, candidates[..n], now), Ids(candidates[..n]);
      SnapshotGrows(rows, candidates);
      PurgeTakesEffect(rows, candidates[..n], now);
      hide PurgeEffect, Ids;
      AllPurged(rows, mid, gone, candidates[n].0, candidates[n].1, now);
    }
  }

  lemma SnapshotGrows(rows: Rows, candidates: seq<(Id, State)>)
    requires Snapshot(rows, candidates) && candidates != []
    ensures var n := |candidates| - 1;
      && Snapshot(rows, candidates[..n]) && IsIn(rows, candidates[n].0, candidates[n].1)
      && candidates[n].0 !in Ids(candidates[..n]) && Ids(candidates) == Ids(candidates[..n]) + {candidates[n].0}
  {
    var n := |candidates| - 1;
    forall q ensures q in Ids(candidates) <==> q in Ids(candidates[..n]) || q == candidates[n].0 {
      if q in Ids(candidates) {
        var i :| 0 <= i < |candidates| && candidates[i].0 == q;
        assert i < n ==> candidates[..n][i].0 == q;
      }
      if q in Ids(candidates[..n]) {
        var i :| 0 <= i < n && candidates[..n][i].0 == q;
        assert candidates[i].0 == q;
      }
      assert candidates[n].0 in Ids(candidates);
    }
  }

  lemma AllPurged(rows: Rows, mid: Rows, gone: set<Id>, id: Id, state: State, now: Time)
    requires PurgeEffect(rows, mid, gone, now) && id !in gone && IsIn(rows, id, state)
    ensures PurgeEffect(rows, PurgeOne(mid, id, state, now), gone + {id}, now)
  {
    var rows' := PurgeOne(mid, id, state, now);
    assert rows'.Keys == mid.Keys - {id};
    hide PurgeOne, Survives;
    forall q | q in rows' ensures Survives(rows, rows'[q], gone + {id}, q, now) {
      OneMorePurged(rows, mid, gone, id, state, now, q);
    }
  }

  function OldRows(rows: Rows, closedBefore: Time, deadBefore: Time): set<Id> {
    set q | q in rows && IsOld(rows[q], closedBefore, deadBefore)
  }

  // The rows the purge removes are those that are old.
  lemma RetentionTakesEffect(rows: Rows, candidates: seq<(Id, State)>, closedBefore: Time, deadBefore: Time, now: Time)
    requires CandidateList(rows, candidates, closedBefore, deadBefore)
    ensures PurgeEffect(rows, PurgeAll(rows, candidates, now), OldRows(rows, closedBefore, deadBefore), now)
  {
    OldAreListed(rows, candidates, closedBefore, deadBefore);
    PurgeTakesEffect(rows, candidates, now);
    hide PurgeEffect, PurgeAll, Snapshot, Ids, OldRows;
  }

  lemma OldAreListed(rows: Rows, candidates: seq<(Id, State)>, closedBefore: Time, deadBefore: Time)
    requires CandidateList(rows, candidates, closedBefore, deadBefore)
    ensures Snapshot(rows, candidates)
    ensures Ids(candidates) == OldRows(rows, closedBefore, deadBefore)
  {
    forall q | q in rows && IsOld(rows[q], closedBefore, deadBefore) ensures q in Ids(candidates) {
      assert Listed(candidates, q, rows[q].state);
      var i :| 0 <= i < |candidates| && candidates[i] == (q, rows[q].state);
      assert candidates[i].0 == q;
    }
    forall i, j | 0 <= i < j < |candidates| ensures candidates[i].0 != candidates[j].0 {
      assert CandidateBefore(rows, candidates[i].0, candidates[j].0);
    }
  }
}
