/**
 The desktop's durable outbox: the `sync_queue` table, the local camera and
 analytics tables that feed it, and every transaction that changes them.
 Each operation runs inside one `BEGIN IMMEDIATE` transaction, so it is one
 function from database to database; a transaction that raises rolls back and
 is the identity.  Fresh identifiers, fresh claim tokens and the clock are
 parameters.  Times are microseconds; module `IsoText` shows that comparing
 their text forms, as the SQL does, is comparing these numbers.
 */
module SyncModel {
  import opened Prelude
  import opened CentralTables

  type Token = nat
  type Time = int
  type Rows = map<Id, Row>

  const SECOND: Time := 1_000_000

  // ---------------------------------------------------------------- entities

  datatype State = Pending | Inflight | RetryWait | Succeeded | DeadLetter | Cancelled

  // `camera:{id}`, `event:{id}`, `alert:{id}`, `count:{id}` and `session:revoke`.
  datatype Key = CameraKey(camera: Id) | EventKey(id: Id) | AlertKey(id: Id) | CountKey(id: Id) | RevokeKey

  datatype Field = Name | StreamUrl | StreamType | LocationLabel | IsActive | AnalyticsConfig | Zones
  type Config = map<Field, string>

  datatype Endpoint = Cameras | CameraAt(camera: Id) | SyncEvents | SyncAlerts | SyncPeopleCount | Logout

  datatype Payload =
    | CameraPost(camera: Id, body: Config)
    | CameraPatch(camera: Id, body: Config, analytics: Option<Config>)
    | CameraDelete(camera: Id)
    | Deliver(item: Item)
    | SessionRevoke(generation: nat)

  datatype Row = Row(
    endpoint: Endpoint, payload: Payload, key: Key, version: nat,
    pred: Option<Id>, dep: Option<Id>,
    state: State, attempts: nat, maxAttempts: nat, nextAt: Time, lastAttempt: Option<Time>,
    leaseExp: Option<Time>, token: Option<Token>, owner: Option<string>,
    failedAt: Option<Time>, completedAt: Option<Time>, createdAt: Time)

  datatype Camera = Camera(serverId: Option<Id>, synced: bool, config: Config)
  datatype LocalItem = LocalItem(camera: Id, synced: bool)
  datatype SessionStatus = Active | RevocationPending
  datatype Session = Session(generation: nat, status: SessionStatus)

  datatype Db = Db(rows: Rows, cameras: map<Id, Camera>, items: map<Key, LocalItem>, session: Option<Session>)

  predicate Closed(r: Row) { r.state == Succeeded || r.state == Cancelled }

  // `last_attempt_at` is written by every lease and never cleared.
  predicate Leased(r: Row) { r.lastAttempt.Some? }

  predicate Waiting(r: Row) { r.state == Pending || r.state == RetryWait }

  predicate IsItemKey(k: Key) { k.EventKey? || k.AlertKey? || k.CountKey? }

  function ItemKey(item: Item): Key {
    match item
    case Event(id, _, _, _, _, _) => EventKey(id)
    case Alert(id, _, _, _, _, _, _) => AlertKey(id)
    case Count(id, _, _, _, _) => CountKey(id)
  }

  function ItemEndpoint(item: Item): Endpoint {
    match item
    case Event(_, _, _, _, _, _) => SyncEvents
    case Alert(_, _, _, _, _, _, _) => SyncAlerts
    case Count(_, _, _, _, _) => SyncPeopleCount
  }

  // ------------------------------------------------- newest and oldest version

  ghost predicate IsLatest(rows: Rows, k: Key, id: Id) {
    id in rows && rows[id].key == k &&
    forall q :: q in rows && rows[q].key == k ==> rows[q].version <= rows[id].version
  }

  ghost predicate IsOldest(rows: Rows, k: Key, id: Id) {
    id in rows && rows[id].key == k &&
    forall q :: q in rows && rows[q].key == k ==> rows[id].version <= rows[q].version
  }

  // ORDER BY version DESC LIMIT 1
  ghost function Latest(rows: Rows, k: Key): Option<Id> {
    if exists id :: IsLatest(rows, k, id) then var id :| IsLatest(rows, k, id); Some(id) else None
  }

  // ORDER BY version ASC LIMIT 1
  ghost function Oldest(rows: Rows, k: Key): Option<Id> {
    if exists id :: IsOldest(rows, k, id) then var id :| IsOldest(rows, k, id); Some(id) else None
  }

  // ------------------------------------------------------------------ enqueue

  predicate Coalesces(r: Row) { r.state == Pending && r.lastAttempt.None? }

  function Coalesced(r: Row, endpoint: Endpoint, payload: Payload, dep: Option<Id>, now: Time): Row {
    r.(endpoint := endpoint, payload := payload, state := Pending, attempts := 0, nextAt := now,
       dep := if dep.Some? then dep else r.dep, failedAt := None)
  }

  function NewRow(endpoint: Endpoint, payload: Payload, key: Key, version: nat, pred: Option<Id>,
                  dep: Option<Id>, maxAttempts: nat, now: Time): Row {
    Row(endpoint, payload, key, version, pred, dep, Pending, 0, maxAttempts, now, None, None, None, None, None, None,
        now)
  }

  // The identifier `_enqueue` returns: the coalesced row's or the new one.
  ghost function EnqueuedId(rows: Rows, key: Key, newId: Id): Id {
    var latest := Latest(rows, key);
    if latest.Some? && latest.value in rows && Coalesces(rows[latest.value]) then latest.value else newId
  }

  ghost function Enqueue(rows: Rows, endpoint: Endpoint, payload: Payload, key: Key,
                         maxAttempts: nat, dep: Option<Id>, now: Time, newId: Id): Rows {
    var latest := Latest(rows, key);
    if latest.Some? && latest.value in rows then
      var l := rows[latest.value];
      if Coalesces(l) then rows[latest.value := Coalesced(l, endpoint, payload, dep, now)]
      else rows[newId := NewRow(endpoint, payload, key, l.version + 1, latest, dep, maxAttempts, now)]
    else
      rows[newId := NewRow(endpoint, payload, key, 1, None, dep, maxAttempts, now)]
  }

  // ------------------------------------------------------- camera and analytics

  ghost function CreateCamera(db: Db, camera: Id, config: Config, maxCameras: nat,
                              newId: Id, maxAttempts: nat, now: Time): Db {
    if |db.cameras| >= maxCameras || camera in db.cameras then db
    else db.(
      cameras := db.cameras[camera := Camera(None, false, config)],
      rows := Enqueue(db.rows, Cameras, CameraPost(camera, config - {IsActive}), CameraKey(camera), maxAttempts, None,
                      now, newId))
  }

  ghost function UpdatePayload(db: Db, camera: Id, changes: Config): (Endpoint, Payload)
    requires camera in db.cameras
  {
    var config := db.cameras[camera].config + changes;
    var latest := Latest(db.rows, CameraKey(camera));
    if db.cameras[camera].serverId.None? && latest.Some? && latest.value in db.rows
       && Coalesces(db.rows[latest.value]) && db.rows[latest.value].payload.CameraPost?
    then (Cameras, CameraPost(camera, config - {IsActive}))
    else (CameraAt(camera),
          CameraPatch(camera, changes - {AnalyticsConfig, Zones},
            if AnalyticsConfig in changes || Zones in changes
            then Some(map f | f in config && f in {AnalyticsConfig, Zones} :: config[f]) else None))
  }

  ghost function UpdateCamera(db: Db, camera: Id, changes: Config, newId: Id, maxAttempts: nat, now: Time): Db {
    if camera !in db.cameras then db
    else
      var row := db.cameras[camera];
      var (endpoint, payload) := UpdatePayload(db, camera, changes);
      db.(cameras := db.cameras[camera := row.(config := row.config + changes, synced := false)],
          rows := Enqueue(db.rows, endpoint, payload, CameraKey(camera), maxAttempts, None, now, newId))
  }

  function CancelWithDependents(rows: Rows, id: Id, now: Time): Rows {
    map q | q in rows ::
      if (q == id || rows[q].dep == Some(id)) && Waiting(rows[q])
      then rows[q].(state := Cancelled, completedAt := Some(now)) else rows[q]
  }

  ghost function DeleteCamera(db: Db, camera: Id, newId: Id, maxAttempts: nat, now: Time): Db {
    if camera !in db.cameras then db
    else
      var latest := Latest(db.rows, CameraKey(camera));
      var rows' :=
        if db.cameras[camera].serverId.None? && latest.Some? && latest.value in db.rows
           && Waiting(db.rows[latest.value])
        then CancelWithDependents(db.rows, latest.value, now)
        else Enqueue(db.rows, CameraAt(camera), CameraDelete(camera), CameraKey(camera), maxAttempts, None, now, newId);
      // ON DELETE CASCADE removes the camera's local analytics records.
      db.(rows := rows', cameras := db.cameras - {camera},
          items := map k | k in db.items && db.items[k].camera != camera :: db.items[k])
  }

  datatype Dependency = NoCamera | NoRecord | Ready | On(id: Id)

  ghost function CameraDependency(db: Db, camera: Id): Dependency {
    if camera !in db.cameras then NoCamera
    else if db.cameras[camera].serverId.Some? then Ready
    else var oldest := Oldest(db.rows, CameraKey(camera));
      if oldest.None? then NoRecord else On(oldest.value)
  }

  ghost function AddItem(db: Db, item: Item, newId: Id, maxAttempts: nat, now: Time): Db {
    var d := CameraDependency(db, item.camera);
    if d.NoCamera? || d.NoRecord? || ItemKey(item) in db.items then db
    else db.(
      items := db.items[ItemKey(item) := LocalItem(item.camera, false)],
      rows := Enqueue(db.rows, ItemEndpoint(item), Deliver(item), ItemKey(item), maxAttempts,
                      if d.On? then Some(d.id) else None, now, newId))
  }

  // ------------------------------------------------------------ claim and settle

  function Expire(rows: Rows, now: Time): Rows {
    map q | q in rows ::
      if rows[q].state == Inflight && rows[q].leaseExp.Some? && rows[q].leaseExp.value < now
      then rows[q].(state := RetryWait, token := None, owner := None, leaseExp := None, nextAt := now)
      else rows[q]
  }

  predicate PredGate(rows: Rows, r: Row) {
    r.pred.None? || (r.pred.value in rows && Closed(rows[r.pred.value]))
  }

  predicate DepGate(rows: Rows, r: Row) {
    r.dep.None? || (r.dep.value in rows && rows[r.dep.value].state == Succeeded)
  }

  predicate Claimable(rows: Rows, q: Id, now: Time, filter: Option<Key>) {
    q in rows && Waiting(rows[q]) && rows[q].nextAt <= now
    && (filter.None? || rows[q].key == filter.value)
    && PredGate(rows, rows[q]) && DepGate(rows, rows[q])
  }

  // ORDER BY created_at, version, id
  predicate Precedes(rows: Rows, a: Id, b: Id)
    requires a in rows && b in rows
  {
    var x, y := rows[a], rows[b];
    x.createdAt < y.createdAt || (x.createdAt == y.createdAt &&
      (x.version < y.version || (x.version == y.version && a < b)))
  }

  // The first `limit` claimable rows in claim order.
  ghost predicate ClaimSet(rows: Rows, chosen: set<Id>, now: Time, filter: Option<Key>, limit: nat) {
    |chosen| <= limit &&
    (forall q {:trigger Claimable(rows, q, now, filter)} :: q in chosen ==> Claimable(rows, q, now, filter)) &&
    (forall q {:trigger Claimable(rows, q, now, filter)} :: Claimable(rows, q, now, filter) && q !in chosen ==>
      |chosen| == limit && forall c :: c in chosen ==> c in rows && Precedes(rows, c, q))
  }

  function Lease(rows: Rows, chosen: set<Id>, token: Token, owner: string, expires: Time, now: Time): Rows {
    map q | q in rows ::
      if q in chosen && Waiting(rows[q])
      then rows[q].(state := Inflight, token := Some(token), owner := Some(owner), leaseExp := Some(expires),
                    lastAttempt := Some(now), attempts := rows[q].attempts + 1)
      else rows[q]
  }

  predicate Owned(rows: Rows, id: Id, token: Token, owner: string, now: Time) {
    id in rows && rows[id].token == Some(token) && rows[id].owner == Some(owner)
    && rows[id].state == Inflight && rows[id].leaseExp.Some? && rows[id].leaseExp.value > now
  }

  function Released(r: Row): Row { r.(token := None, owner := None, leaseExp := None) }

  function Succeed(rows: Rows, id: Id, now: Time): Rows
    requires id in rows
  {
    rows[id := Released(rows[id]).(state := Succeeded, completedAt := Some(now))]
  }

  function Complete(db: Db, id: Id, token: Token, owner: string, now: Time): Db {
    if !Owned(db.rows, id, token, owner, now) then db
    else
      var key := db.rows[id].key;
      db.(rows := Succeed(db.rows, id, now),
          items := if key in db.items then db.items[key := db.items[key].(synced := true)] else db.items)
  }

  predicate ServerIdTaken(cameras: map<Id, Camera>, localId: Id, serverId: Id) {
    localId in cameras && exists c :: c in cameras && c != localId && cameras[c].serverId == Some(serverId)
  }

  function CompleteCamera(db: Db, id: Id, token: Token, owner: string, localId: Id, serverId: Id, now: Time): Db {
    if !Owned(db.rows, id, token, owner, now) then db
    // local_cameras.server_id is UNIQUE: a clash rolls the transaction back.
    else if ServerIdTaken(db.cameras, localId, serverId) then db
    else db.(rows := Succeed(db.rows, id, now),
             cameras := if localId in db.cameras
                        then db.cameras[localId := db.cameras[localId].(serverId := Some(serverId), synced := true)]
                        else db.cameras)
  }

  function CompleteRevocation(db: Db, id: Id, token: Token, owner: string, generation: nat, now: Time): Db {
    if !Owned(db.rows, id, token, owner, now) then db
    else db.(rows := Succeed(db.rows, id, now),
             session := if db.session == Some(Session(generation, RevocationPending)) then None else db.session)
  }

  function Pow2(n: nat): nat { if n == 0 then 1 else 2 * Pow2(n - 1) }

  function RetryDelay(attempts: nat): Time { Min(300, Pow2(Min(attempts, 8))) * SECOND }

  function Fail(rows: Rows, id: Id, token: Token, owner: string, permanent: bool, now: Time): Rows {
    if !Owned(rows, id, token, owner, now) then rows
    else
      var r := rows[id];
      var dead := permanent || r.attempts >= r.maxAttempts;
      rows[id := Released(r).(state := if dead then DeadLetter else RetryWait,
                              nextAt := now + RetryDelay(r.attempts),
                              failedAt := if dead then Some(now) else None)]
  }

  function RetryDead(rows: Rows, id: Id, now: Time): Rows {
    if id in rows && rows[id].state == DeadLetter
    then rows[id := rows[id].(state := Pending, attempts := 0, nextAt := now, failedAt := None)] else rows
  }

  function DiscardDead(rows: Rows, id: Id, now: Time): Rows {
    if id in rows && rows[id].state == DeadLetter
    then rows[id := rows[id].(state := Cancelled, completedAt := Some(now))] else rows
  }

  // --------------------------------------------------------------------- purge

  // q waits, directly, for p.
  predicate Edge(rows: Rows, q: Id, p: Id) {
    q in rows && (rows[q].pred == Some(p) || rows[q].dep == Some(p))
  }

  // path[0] waits for path[1] waits for ... path[last]; every element but the last is a row.
  ghost predicate IsPath(rows: Rows, path: seq<Id>) {
    |path| >= 1 && forall i :: 0 <= i < |path| - 1 ==> Edge(rows, path[i], path[i + 1])
  }

  ghost predicate Reaches(rows: Rows, q: Id, root: Id) {
    exists path :: IsPath(rows, path) && |path| >= 2 && path[0] == q && path[|path| - 1] == root
  }

  ghost function Descendants(rows: Rows, root: Id): set<Id> {
    set q | q in rows && Reaches(rows, q, root)
  }

  function CancelAll(rows: Rows, victims: set<Id>, now: Time): Rows {
    map q | q in rows ::
      if q in victims && rows[q].state != Inflight
      then Released(rows[q]).(state := Cancelled, completedAt := Some(now)) else rows[q]
  }

  function Dependents(rows: Rows, id: Id): set<Id> {
    set q | q in rows && rows[q].dep == Some(id)
  }

  function Unlinked(r: Row, id: Id): Row {
    r.(pred := if r.pred == Some(id) then None else r.pred,
       dep := if r.dep == Some(id) then None else r.dep)
  }

  function Remove(rows: Rows, id: Id): Rows {
    map q | q in rows && q != id :: Unlinked(rows[q], id)
  }

  ghost function PurgeOne(rows: Rows, id: Id, state: State, now: Time): Rows {
    Remove(if state == DeadLetter then CancelAll(rows, Descendants(rows, id), now)
           else if state == Cancelled then CancelAll(rows, Dependents(rows, id), now)
           else rows, id)
  }

  ghost function PurgeAll(rows: Rows, candidates: seq<(Id, State)>, now: Time): Rows {
    if candidates == [] then rows
    else
      var last := candidates[|candidates| - 1];
      PurgeOne(PurgeAll(rows, candidates[..|candidates| - 1], now), last.0, last.1, now)
  }

  predicate Retired(r: Row, closedBefore: Time, deadBefore: Time) {
    (Closed(r) && r.completedAt.Some? && r.completedAt.value < closedBefore)
    || (r.state == DeadLetter && r.failedAt.Some? && r.failedAt.value < deadBefore)
  }

  predicate CandidateBefore(rows: Rows, a: Id, b: Id)
    requires a in rows && b in rows
  {
    rows[a].createdAt < rows[b].createdAt || (rows[a].createdAt == rows[b].createdAt && a < b)
  }

  predicate Listed(candidates: seq<(Id, State)>, id: Id, state: State) { (id, state) in candidates }

  // The snapshot `SELECT id, state ... ORDER BY created_at, id`.
  ghost predicate CandidateList(rows: Rows, candidates: seq<(Id, State)>, closedBefore: Time, deadBefore: Time) {
    (forall i :: 0 <= i < |candidates| ==>
      candidates[i].0 in rows && rows[candidates[i].0].state == candidates[i].1
      && Retired(rows[candidates[i].0], closedBefore, deadBefore)) &&
    (forall q {:trigger Listed(candidates, q, rows[q].state)} ::
      q in rows && Retired(rows[q], closedBefore, deadBefore) ==> Listed(candidates, q, rows[q].state)) &&
    (forall i, j :: 0 <= i < j < |candidates| ==> CandidateBefore(rows, candidates[i].0, candidates[j].0))
  }

  // ------------------------------------------------------------------- sessions

  function CancelRevocations(rows: Rows, now: Time): Rows {
    map q | q in rows ::
      if rows[q].key == RevokeKey && (Waiting(rows[q]) || rows[q].state == DeadLetter)
      then rows[q].(state := Cancelled, completedAt := Some(now)) else rows[q]
  }

  function SaveSession(db: Db, now: Time): Db {
    db.(session := Some(Session(if db.session.Some? then db.session.value.generation + 1 else 1, Active)),
        rows := CancelRevocations(db.rows, now))
  }

  ghost function EnqueueRevocation(db: Db, generation: nat, newId: Id, maxAttempts: nat, now: Time): Db {
    db.(rows := Enqueue(db.rows, Logout, SessionRevoke(generation), RevokeKey, maxAttempts, None, now, newId))
  }

  // The queued revocation and its first lease, which tests no predecessor.
  ghost function BeginRows(rows: Rows, generation: nat, newId: Id, token: Token, expires: Time, maxAttempts: nat,
                           now: Time): Rows {
    var queued := Enqueue(rows, Logout, SessionRevoke(generation), RevokeKey, maxAttempts, None, now, newId);
    Lease(queued, {EnqueuedId(rows, RevokeKey, newId)}, token, "auth-logout", expires, now)
  }

  ghost function BeginRevocation(db: Db, expected: nat, newId: Id, token: Token, lease: Time, maxAttempts: nat,
                                 now: Time): Db {
    if db.session != Some(Session(expected, Active)) then db
    else
      db.(session := Some(Session(expected + 1, RevocationPending)),
          rows := BeginRows(db.rows, expected + 1, newId, token, now + lease, maxAttempts, now))
  }

  // ------------------------------------------------------------------ operations

  datatype Op =
    | OpCreateCamera(camera: Id, config: Config, maxCameras: nat, newId: Id, maxAttempts: nat, now: Time)
    | OpUpdateCamera(camera: Id, changes: Config, newId: Id, maxAttempts: nat, now: Time)
    | OpDeleteCamera(camera: Id, newId: Id, maxAttempts: nat, now: Time)
    | OpAddItem(item: Item, newId: Id, maxAttempts: nat, now: Time)
    | OpClaim(chosen: set<Id>, lessee: string, limit: nat, filter: Option<Key>, token: Token, lease: Time, now: Time)
    | OpComplete(id: Id, token: Token, lessee: string, now: Time)
    | OpCompleteCamera(id: Id, token: Token, lessee: string, localId: Id, serverId: Id, now: Time)
    | OpCompleteRevocation(id: Id, token: Token, lessee: string, generation: nat, now: Time)
    | OpFail(id: Id, token: Token, lessee: string, permanent: bool, now: Time)
    | OpRetryDead(id: Id, now: Time)
    | OpDiscardDead(id: Id, now: Time)
    | OpPurge(candidates: seq<(Id, State)>, closedBefore: Time, deadBefore: Time, now: Time)
    | OpSaveSession(now: Time)
    | OpEnqueueRevocation(generation: nat, newId: Id, maxAttempts: nat, now: Time)
    | OpBeginRevocation(expected: nat, newId: Id, token: Token, lease: Time, maxAttempts: nat, now: Time)
    // replace_active, mark_revocation_pending and clear: any change of the session row alone.
    | OpWriteSession(session: Option<Session>)

  ghost function Apply(db: Db, op: Op): Db {
    match op
    case OpCreateCamera(c, config, limit, id, m, now) => CreateCamera(db, c, config, limit, id, m, now)
    case OpUpdateCamera(c, changes, id, m, now) => UpdateCamera(db, c, changes, id, m, now)
    case OpDeleteCamera(c, id, m, now) => DeleteCamera(db, c, id, m, now)
    case OpAddItem(item, id, m, now) => AddItem(db, item, id, m, now)
    case OpClaim(chosen, lessee, _, _, token, lease, now) =>
      db.(rows := Lease(Expire(db.rows, now), chosen, token, lessee, now + lease, now))
    case OpComplete(id, token, lessee, now) => Complete(db, id, token, lessee, now)
    case OpCompleteCamera(id, token, lessee, l, s, now) => CompleteCamera(db, id, token, lessee, l, s, now)
    case OpCompleteRevocation(id, token, lessee, g, now) => CompleteRevocation(db, id, token, lessee, g, now)
    case OpFail(id, token, lessee, permanent, now) => db.(rows := Fail(db.rows, id, token, lessee, permanent, now))
    case OpRetryDead(id, now) => db.(rows := RetryDead(db.rows, id, now))
    case OpDiscardDead(id, now) => db.(rows := DiscardDead(db.rows, id, now))
    case OpPurge(candidates, _, _, now) => db.(rows := PurgeAll(db.rows, candidates, now))
    case OpSaveSession(now) => SaveSession(db, now)
    case OpEnqueueRevocation(g, id, m, now) => EnqueueRevocation(db, g, id, m, now)
    case OpBeginRevocation(g, id, token, lease, m, now) => BeginRevocation(db, g, id, token, lease, m, now)
    case OpWriteSession(s) => db.(session := s)
  }

  // What the database itself fixes about an operation's choices.
  ghost predicate WellFormed(db: Db, op: Op) {
    match op
    case OpClaim(chosen, lessee, limit, filter, _, _, now) =>
      lessee != "" && 1 <= limit <= 500 && ClaimSet(Expire(db.rows, now), chosen, now, filter, limit)
    case OpPurge(candidates, closedBefore, deadBefore, _) =>
      CandidateList(db.rows, candidates, closedBefore, deadBefore)
    case _ => true
  }
}
