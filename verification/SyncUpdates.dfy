/**
 Which changed fields of a camera its newest row tells the central service.  A
 row that was never leased is rewritten by the next change, with what that change
 asks for.
 */
module SyncUpdates {
  import opened Prelude
  import opened CentralTables
  import opened SyncModel
  import opened SyncInvariant
  import opened SyncHistory
  import opened SyncRuns
  import opened SyncEffects
  import opened SyncDelivery

  // The fields a row tells the central service about.
  function Told(p: Payload): set<Field> {
    match p
    case CameraPost(_, body) => body.Keys
    case CameraPatch(_, body, analytics) => body.Keys + (if analytics.Some? then analytics.value.Keys else {})
    case _ => {}
  }

  // The fields this update puts in its row.
  ghost function Asked(db: Db, camera: Id, changes: Config): set<Field>
    requires camera in db.cameras
  {
    var known := db.cameras[camera].config.Keys + changes.Keys;
    if UnsentPost(db, camera) then known * CreateFields
    else (changes.Keys - AnalyticsFields) + (if ChangesAnalytics(changes) then known * AnalyticsFields else {})
  }

  lemma UpdateTells(db: Db, db': Db, camera: Id, changes: Config, maxAttempts: nat, now: Time, newId: Id, id: Id)
    requires UpdateEffect(db, db', camera, changes, maxAttempts, now, newId, id)
    ensures Told(db'.rows[id].payload) == Asked(db, camera, changes)
  {
    hide Queued, UnsentPost;
    var config := db'.cameras[camera].config;
    assert config.Keys == db.cameras[camera].config.Keys + changes.Keys;
    assert Told(db'.rows[id].payload) == Asked(db, camera, changes);
  }

  /** The newest row tells every field of an update, with its new value in the camera's
      configuration, if and only if the update does not switch the camera while its POST is unsent:
      the create request has no is_active. */
  lemma EveryChangeToldIff(db: Db, db': Db, camera: Id, changes: Config, maxAttempts: nat, now: Time, newId: Id, id: Id)
    requires UpdateEffect(db, db', camera, changes, maxAttempts, now, newId, id)
    ensures changes.Keys <= Told(db'.rows[id].payload) <==> !(UnsentPost(db, camera) && IsActive in changes)
  {
    UpdateTells(db, db', camera, changes, maxAttempts, now, newId, id);
    assert forall f: Field :: f in CreateFields <==> f != IsActive;
    hide UpdateEffect, UnsentPost;
  }

  // Between two updates the camera stays and its newest row is neither leased nor rewritten.
  ghost predicate StillUnsent(db1: Db, db2: Db, camera: Id, id: Id) {
    && camera in db1.cameras && camera in db2.cameras && id in db1.rows
    && db2.cameras[camera].config.Keys == db1.cameras[camera].config.Keys
    && IsLatest(db2.rows, CameraKey(camera), id) && db2.rows[id].state == Pending && db2.rows[id].lastAttempt.None?
    && db2.rows[id].payload == db1.rows[id].payload
    && (UnsentPost(db1, camera) ==> UnsentPost(db2, camera))
  }

  /** A second update before the first one's row is leased rewrites that row.  It still tells every
      field the first one told if and only if the POST is unsent, or the second changes all of the
      first's plain fields, and an analytics field if the first changed one.  Anything else is lost. */
  lemma SecondUpdateKeepsIff(db: Db, db1: Db, db2: Db, db3: Db, camera: Id, first: Config, second: Config, m: nat,
                             m': nat, now: Time, now': Time, newId: Id, newId': Id, id: Id, id': Id)
    requires UpdateEffect(db, db1, camera, first, m, now, newId, id) && StillUnsent(db1, db2, camera, id)
    requires UpdateEffect(db2, db3, camera, second, m', now', newId', id') && Distinct(db2.rows)
    ensures id' == id
    ensures Told(db1.rows[id].payload) <= Told(db3.rows[id].payload) <==>
      || UnsentPost(db, camera)
      || (&& first.Keys - AnalyticsFields <= second.Keys
          && (ChangesAnalytics(first) ==> ChangesAnalytics(second)))
  {
    SameRow(db2, db3, camera, second, m', now', newId', id, id');
    UpdateTells(db, db1, camera, first, m, now, newId, id);
    UpdateTells(db2, db3, camera, second, m', now', newId', id');
    StillPost(db, db1, db2, camera, first, m, now, newId, id);
    TellsLess(db, db1, db2, camera, first, second, m, now, newId, id);
    hide UpdateEffect, StillUnsent, Told, Asked, UnsentPost;
  }

  lemma SameRow(db2: Db, db3: Db, camera: Id, second: Config, m: nat, now: Time, newId: Id, id: Id, id': Id)
    requires UpdateEffect(db2, db3, camera, second, m, now, newId, id') && Distinct(db2.rows)
    requires IsLatest(db2.rows, CameraKey(camera), id) && db2.rows[id].state == Pending
    requires db2.rows[id].lastAttempt.None?
    ensures id' == id
  {
    assert NewestUnsent(db2.rows, CameraKey(camera));
    assert Rewritten(db2.rows, db3.rows[id'], id', CameraKey(camera), None);
    LatestUnique(db2.rows, CameraKey(camera), id, id');
    hide Distinct, Queued;
  }

  // The row between the two updates is an unsent POST exactly if it was one before the first.
  lemma StillPost(db: Db, db1: Db, db2: Db, camera: Id, first: Config, m: nat, now: Time, newId: Id, id: Id)
    requires UpdateEffect(db, db1, camera, first, m, now, newId, id) && StillUnsent(db1, db2, camera, id)
    requires Distinct(db2.rows)
    ensures UnsentPost(db2, camera) <==> UnsentPost(db, camera)
  {
    if UnsentPost(db2, camera) {
      var l :| IsLatest(db2.rows, CameraKey(camera), l) && db2.rows[l].payload.CameraPost?;
      LatestUnique(db2.rows, CameraKey(camera), id, l);
    }
    hide Distinct, NewestUnsent, Appended, Rewritten, OthersKept;
    if UnsentPost(db, camera) { assert UnsentPost(db1, camera); }
  }

  lemma TellsLess(db: Db, db1: Db, db2: Db, camera: Id, first: Config, second: Config, m: nat, now: Time, newId: Id,
                  id: Id)
    requires UpdateEffect(db, db1, camera, first, m, now, newId, id) && StillUnsent(db1, db2, camera, id)
    requires UnsentPost(db2, camera) <==> UnsentPost(db, camera)
    ensures Asked(db, camera, first) <= Asked(db2, camera, second) <==>
      || UnsentPost(db, camera)
      || (&& first.Keys - AnalyticsFields <= second.Keys
          && (ChangesAnalytics(first) ==> ChangesAnalytics(second)))
  {
    var known := db.cameras[camera].config.Keys + first.Keys;
    assert db2.cameras[camera].config.Keys == known;
    hide UpdateEffect, StillUnsent, UnsentPost;
    if ChangesAnalytics(first) {
      var f := if AnalyticsConfig in first then AnalyticsConfig else Zones;
      assert f in known * AnalyticsFields;
    }
    if !UnsentPost(db, camera) && Asked(db, camera, first) <= Asked(db2, camera, second) {
      forall f | f in first.Keys - AnalyticsFields ensures f in second.Keys { assert f in Asked(db, camera, first); }
    }
  }

  // -------------------------------------------------------------------- lost for good

  // No row of the camera tells the field or is its POST, but for rows sent before.
  ghost predicate Untold(rows: Rows, camera: Id, f: Field, sent: set<Id>) {
    forall q :: q in rows && rows[q].key == CameraKey(camera) && q !in sent ==>
      f !in Told(rows[q].payload) && !rows[q].payload.CameraPost?
  }

  // The operation asks the central service to change this field of the camera.
  predicate AsksFor(op: Op, camera: Id, f: Field) {
    op.OpUpdateCamera? && op.camera == camera
    && (if f in AnalyticsFields then ChangesAnalytics(op.changes) else f in op.changes)
  }

  lemma QueuedUntold(rows: Rows, rows': Rows, endpoint: Endpoint, payload: Payload, key: Key, m: nat, dep: Option<Id>,
                     now: Time, newId: Id, id: Id, camera: Id, f: Field, sent: set<Id>)
    requires Queued(rows, rows', endpoint, payload, key, m, dep, now, newId, id) && Untold(rows, camera, f, sent)
    requires key == CameraKey(camera) ==> f !in Told(payload) && !payload.CameraPost?
    ensures Untold(rows', camera, f, sent)
  {
    hide Told, NewestUnsent, Appended, Rewritten;
  }

  lemma UpdateUntold(db: Db, db': Db, camera: Id, changes: Config, m: nat, now: Time, newId: Id, id: Id, f: Field,
                     sent: set<Id>)
    requires UpdateEffect(db, db', camera, changes, m, now, newId, id) && Untold(db.rows, camera, f, sent)
    requires forall q :: q in db.rows && q in sent ==> Leased(db.rows[q])
    requires if f in AnalyticsFields then !ChangesAnalytics(changes) else f !in changes
    ensures Untold(db'.rows, camera, f, sent)
  {
    assert !UnsentPost(db, camera);
    UpdateTells(db, db', camera, changes, m, now, newId, id);
    assert f !in Told(db'.rows[id].payload) && !db'.rows[id].payload.CameraPost?;
    hide Told, Asked, Queued, UnsentPost, Untold;
    QueuedUntold(db.rows, db'.rows, db'.rows[id].endpoint, db'.rows[id].payload, CameraKey(camera), m, None, now, newId,
                 id, camera, f, sent);
  }

  lemma CameraOpUntold(db: Db, op: Op, camera: Id, f: Field, sent: set<Id>)
    requires op.OpCreateCamera? || op.OpUpdateCamera? || op.OpDeleteCamera?
    requires Distinct(db.rows) && op.newId !in db.rows && Untold(db.rows, camera, f, sent) && !AsksFor(op, camera, f)
    requires op.OpCreateCamera? ==> op.camera !in db.cameras && op.camera != camera
    requires forall q :: q in db.rows && q in sent ==> Leased(db.rows[q])
    ensures Untold(Apply(db, op).rows, camera, f, sent)
  {
    hide Distinct, Untold, Queued, CarriesUpdate, Withdrawn;
    var db' := Apply(db, op);
    match op {
      case OpCreateCamera(c, config, limit, id, m, now) =>
        CreateTakesEffect(db, c, config, limit, id, m, now);
        if i :| CreateEffect(db, db', c, config, m, now, id, i) {
          QueuedUntold(db.rows, db'.rows, Cameras, CameraPost(c, db'.rows[i].payload.body), CameraKey(c), m, None, now,
                       id, i, camera, f, sent);
        }
      case OpUpdateCamera(c, changes, id, m, now) =>
        UpdateTakesEffect(db, c, changes, id, m, now);
        if i :| UpdateEffect(db, db', c, changes, m, now, id, i) {
          if c == camera {
            UpdateUntold(db, db', c, changes, m, now, id, i, f, sent);
          } else {
            QueuedUntold(db.rows, db'.rows, db'.rows[i].endpoint, db'.rows[i].payload, CameraKey(c), m, None, now, id,
                         i, camera, f, sent);
          }
        }
      case OpDeleteCamera(c, id, m, now) =>
        DeleteTakesEffect(db, c, id, m, now);
        if c in db.cameras { DeletionUntold(db, db', c, m, now, id, camera, f, sent); }
    }
  }

  lemma DeletionUntold(db: Db, db': Db, c: Id, m: nat, now: Time, newId: Id, camera: Id, f: Field, sent: set<Id>)
    requires DeleteEffect(db, db', c, m, now, newId) && Untold(db.rows, camera, f, sent)
    ensures Untold(db'.rows, camera, f, sent)
  {
    hide Queued, IsLatest;
    if Withdraws(db, c) {
      var l :| IsLatest(db.rows, CameraKey(c), l) && WithdrawnAt(db.rows, db'.rows, l, now);
      forall q | q in db'.rows
        ensures db'.rows[q].payload == db.rows[q].payload && db'.rows[q].key == db.rows[q].key
      {
      }
    } else {
      var id :| Queued(db.rows, db'.rows, CameraAt(c), CameraDelete(c), CameraKey(c), m, None, now, newId, id);
      QueuedUntold(db.rows, db'.rows, CameraAt(c), CameraDelete(c), CameraKey(c), m, None, now, newId, id, camera, f,
                   sent);
    }
  }

  lemma ContentUntold(rows: Rows, rows': Rows, camera: Id, f: Field, sent: set<Id>)
    requires AllKeepContent(rows, rows') && Untold(rows, camera, f, sent)
    ensures Untold(rows', camera, f, sent)
  {
    hide Told;
    forall q | q in rows' ensures KeepsContent(rows, rows', q) { }
  }

  lemma OtherOpUntold(db: Db, op: Op, camera: Id, f: Field, sent: set<Id>)
    requires !op.OpCreateCamera? && !op.OpUpdateCamera? && !op.OpDeleteCamera? && Untold(db.rows, camera, f, sent)
    ensures Untold(Apply(db, op).rows, camera, f, sent)
  {
    hide Told, Enqueue, EnqueuedId, BeginRows, PurgeAll, Untold, ItemEndpoint, CameraDependency;
    var rows, rows' := db.rows, Apply(db, op).rows;
    match op {
      case OpAddItem(item, id, m, now) =>
        var d := CameraDependency(db, item.camera);
        EnqueuePuts(rows, ItemEndpoint(item), Deliver(item), ItemKey(item), m, if d.On? then Some(d.id) else None, now,
                    id);
        if rows' != rows { PutUntold(rows, rows', EnqueuedId(rows, ItemKey(item), id), Deliver(item), camera, f,
                                     sent); }
      case OpEnqueueRevocation(g, id, m, now) =>
        EnqueuePuts(rows, Logout, SessionRevoke(g), RevokeKey, m, None, now, id);
        PutUntold(rows, rows', EnqueuedId(rows, RevokeKey, id), SessionRevoke(g), camera, f, sent);
      case OpBeginRevocation(g, id, token, lease, m, now) =>
        BeginPuts(rows, g + 1, id, token, now + lease, m, now);
        if rows' != rows {
          PutUntold(rows, rows', EnqueuedId(rows, RevokeKey, id), SessionRevoke(g + 1), camera, f, sent);
        }
      case OpPurge(candidates, _, _, now) =>
        PurgeKeepsContent(rows, candidates, now);
        ContentUntold(rows, rows', camera, f, sent);
      case _ => ContentUntold(rows, rows', camera, f, sent);
    }
  }

  lemma PutUntold(rows: Rows, rows': Rows, id: Id, payload: Payload, camera: Id, f: Field, sent: set<Id>)
    requires Puts(rows, rows', id, payload) && !PayloadKey(payload).CameraKey? && Untold(rows, camera, f, sent)
    ensures Untold(rows', camera, f, sent)
  {
    hide Told;
    forall q | q in rows' && rows'[q].key == CameraKey(camera) ensures KeepsContent(rows, rows', q) {
      if !KeepsContent(rows, rows', q) { assert false; }
    }
  }

  // No operation of the run asks for the field.
  predicate NoneAsks(ops: seq<Op>, camera: Id, f: Field) {
    forall i :: 0 <= i < |ops| ==> !AsksFor(ops[i], camera, f)
  }

  lemma StepUntold(w: World, op: Op, camera: Id, f: Field, sent: set<Id>)
    requires Inv(w) && Enabled(w, op) && camera in w.log.cameras && sent <= w.log.sent.Keys
    requires Untold(w.db.rows, camera, f, sent) && !AsksFor(op, camera, f)
    ensures var w' := Next(w, op);
      Untold(w'.db.rows, camera, f, sent) && camera in w'.log.cameras && sent <= w'.log.sent.Keys
  {
    SentAreLeased(w, op, sent);
    LogGrows(w, op);
    hide Inv, Next, Apply, Untold, Told, Enabled;
    if op.OpCreateCamera? || op.OpUpdateCamera? || op.OpDeleteCamera? {
      CameraOpUntold(w.db, op, camera, f, sent);
    } else {
      OtherOpUntold(w.db, op, camera, f, sent);
    }
  }

  lemma SentAreLeased(w: World, op: Op, sent: set<Id>)
    requires Inv(w) && Enabled(w, op) && sent <= w.log.sent.Keys
    ensures forall q :: q in w.db.rows && q in sent ==> Leased(w.db.rows[q])
    ensures Distinct(w.db.rows)
    ensures op.OpCreateCamera? || op.OpUpdateCamera? || op.OpDeleteCamera? ==> op.newId !in w.db.rows
    ensures op.OpCreateCamera? ==> op.camera !in w.db.cameras && op.camera !in w.log.cameras
  {
    hide Gates, CamerasOrdered, Fenced, SucceededOnce, Ever;
  }

  lemma LogGrows(w: World, op: Op)
    ensures Next(w, op).db == Apply(w.db, op)
    ensures w.log.cameras <= Next(w, op).log.cameras && w.log.sent.Keys <= Next(w, op).log.sent.Keys
  {
    hide Apply;
  }

  /** A change that was lost stays lost: once no row of the camera that was never sent tells a field,
      none ever does in any continuation without an update that asks for that field again. */
  lemma {:induction false} LostForGood(w: World, ops: seq<Op>, camera: Id, f: Field, sent: set<Id>)
    requires Inv(w) && Runnable(w, ops) && camera in w.log.cameras && sent <= w.log.sent.Keys
    requires Untold(w.db.rows, camera, f, sent) && NoneAsks(ops, camera, f)
    ensures Untold(Exec(w, ops).db.rows, camera, f, sent)
    decreases |ops|
  {
    hide Inv, Enabled, Next, Untold, AsksFor;
    if ops != [] {
      StepUntold(w, ops[0], camera, f, sent);
      StepKeepsInv(w, ops[0]);
      assert forall i :: 0 <= i < |ops| - 1 ==> ops[1..][i] == ops[i + 1];
      LostForGood(Next(w, ops[0]), ops[1..], camera, f, sent);
    }
  }

  // A camera the central service knows: its create was sent.
  const OldPlace: Config := map[Name := "old", LocationLabel := "hall"]
  const Rename: Config := map[Name := "new"]
  const Move: Config := map[LocationLabel := "yard"]
  const SentCreate := NewRow(Cameras, CameraPost(1, OldPlace), CameraKey(1), 1, None, None, 8, 0).(
    state := Succeeded, lastAttempt := Some(0), completedAt := Some(1), attempts := 1)
  const Known := Db(map[10 := SentCreate], map[1 := Camera(Some(1), true, OldPlace)], map[], None)
  const Renaming := NewRow(CameraAt(1), CameraPatch(1, Rename, None), CameraKey(1), 2, Some(10), None, 8, 5)
  const Renamed := Db(map[10 := SentCreate, 11 := Renaming], map[1 := Camera(Some(1), false, OldPlace + Rename)], map[],
                      None)

  lemma NewestOf(rows: Rows, id: Id)
    requires IsLatest(rows, CameraKey(1), id)
    requires forall q :: q in rows && q != id ==> rows[q].version < rows[id].version
    ensures Latest(rows, CameraKey(1)) == Some(id)
  {
    LatestIs(rows, CameraKey(1));
  }

  lemma RenameQueued()
    ensures UpdateCamera(Known, 1, Rename, 11, 8, 5) == Renamed
  {
    NewestOf(Known.rows, 10);
    assert Rename - {AnalyticsConfig, Zones} == Rename;
    hide Latest, IsLatest;
    assert UpdateCamera(Known, 1, Rename, 11, 8, 5).rows == Renamed.rows;
  }

  lemma MoveReplaces()
    ensures var moved := UpdateCamera(Renamed, 1, Move, 12, 8, 6);
      && moved.rows == Renamed.rows[11 := Renaming.(payload := CameraPatch(1, Move, None), nextAt := 6)]
      && moved.cameras == map[1 := Camera(Some(1), false, map[Name := "new", LocationLabel := "yard"])]
  {
    NewestOf(Renamed.rows, 11);
    hide Latest, IsLatest;
    assert Move - {AnalyticsConfig, Zones} == Move;
    assert OldPlace + Rename + Move == map[Name := "new", LocationLabel := "yard"];
  }

  /** A concrete lost change: a camera is renamed and then moved before the first change is sent.
      The one row left tells only the new place, while the local camera has both. */
  lemma RenameIsLost()
    ensures var moved := UpdateCamera(UpdateCamera(Known, 1, Rename, 11, 8, 5), 1, Move, 12, 8, 6);
      && 1 in moved.cameras && moved.cameras[1].config == map[Name := "new", LocationLabel := "yard"]
      && moved.rows.Keys == {10, 11} && moved.rows[10] == SentCreate && Told(moved.rows[11].payload) == {LocationLabel}
  {
    hide UpdateCamera;
    RenameQueued();
    MoveReplaces();
  }
}
