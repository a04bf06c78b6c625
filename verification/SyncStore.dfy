/**
 The outbox as the repositories run it: tables updated in place inside one
 transaction per method.  Every method is proved against the function of the
 same name in `SyncModel`.
 */
module SyncStore {
  import opened Prelude
  import opened CentralTables
  import opened SyncModel
  import opened SyncInvariant
  import opened SyncPurge
  import opened SyncRuns
  import opened SyncEffects

  // Any set that is closed under "waits for" below root holds every descendant of root.
  lemma {:induction false} ClosedHoldsPath(rows: Rows, root: Id, s: set<Id>, path: seq<Id>)
    requires IsPath(rows, path) && |path| >= 2 && path[|path| - 1] == root
    requires forall q, p :: Edge(rows, q, p) && (p == root || p in s) ==> q in s
    ensures path[0] in s
  {
    assert Edge(rows, path[0], path[1]);
    if |path| > 2 {
      PathTail(rows, path);
      ClosedHoldsPath(rows, root, s, path[1..]);
    }
  }

  lemma ReachesBack(rows: Rows, q: Id, p: Id, root: Id)
    requires Edge(rows, q, p) && (p == root || Reaches(rows, p, root))
    ensures Reaches(rows, q, root)
  {
    if p == root {
      var path := [q, p];
      assert IsPath(rows, path) && path[0] == q && path[|path| - 1] == root;
    } else {
      var tail :| IsPath(rows, tail) && |tail| >= 2 && tail[0] == p && tail[|tail| - 1] == root;
      var path := [q] + tail;
      forall i | 0 <= i < |path| - 1 ensures Edge(rows, path[i], path[i + 1]) {
        if i > 0 { assert Edge(rows, tail[i - 1], tail[i]); }
      }
      assert IsPath(rows, path) && path[0] == q && path[|path| - 1] == root;
    }
  }

  /** The recursive query `WITH RECURSIVE descendants`: it terminates, and its
      answer is exactly the set of rows that wait, through any chain, for root. */
  method FindDescendants(rows: Rows, root: Id) returns (found: set<Id>)
    ensures found == Descendants(rows, root)
  {
    found := {};
    var frontier := {root};
    while frontier != {}
      invariant found <= rows.Keys && frontier <= found + {root}
      invariant forall q :: q in found ==> Reaches(rows, q, root)
      invariant forall q, p :: Edge(rows, q, p) && (p == root || p in found) && p !in frontier ==> q in found
      decreases |rows.Keys - found|, |frontier|
    {
      var p :| p in frontier;
      var next := set q | q in rows && Edge(rows, q, p) && q !in found;
      forall q | q in next ensures Reaches(rows, q, root) { ReachesBack(rows, q, p, root); }
      if next == {} {
        frontier := frontier - {p};
      } else {
        ghost var q :| q in next;
        assert rows.Keys - (found + next) < rows.Keys - found by { assert q in rows.Keys - found; }
        SmallerSet(rows.Keys - (found + next), rows.Keys - found);
        found, frontier := found + next, (frontier - {p}) + next;
      }
    }
    forall q | q in Descendants(rows, root) ensures q in found {
      var path :| IsPath(rows, path) && |path| >= 2 && path[0] == q && path[|path| - 1] == root;
      ClosedHoldsPath(rows, root, found, path);
    }
  }

  lemma SmallerSet(a: set<Id>, b: set<Id>)
    requires a < b
    ensures |a| < |b|
  {
    assert exists x :: x in b && x !in a;
    var x :| x in b && x !in a;
    SubsetSize(a, b - {x});
  }

  // ORDER BY version DESC LIMIT 1 over the rows of one key.
  method FindLatest(rows: Rows, key: Key) returns (latest: Option<Id>)
    requires Distinct(rows)
    ensures latest == Latest(rows, key)
  {
    latest := None;
    var todo := rows.Keys;
    while todo != {}
      invariant todo <= rows.Keys
      invariant latest.Some? ==> latest.value in rows.Keys - todo && rows[latest.value].key == key
      invariant forall q :: q in rows.Keys - todo && rows[q].key == key ==>
        latest.Some? && rows[q].version <= rows[latest.value].version
      decreases todo
    {
      var q :| q in todo;
      todo := todo - {q};
      if rows[q].key == key && (latest.None? || rows[latest.value].version < rows[q].version) {
        latest := Some(q);
      }
    }
    LatestIs(rows, key);
    if latest.Some? { LatestUnique(rows, key, latest.value, Latest(rows, key).value); }
  }

  // ORDER BY version ASC LIMIT 1 over the rows of one key.
  method FindOldest(rows: Rows, key: Key) returns (oldest: Option<Id>)
    requires Distinct(rows)
    ensures oldest == Oldest(rows, key)
  {
    oldest := None;
    var todo := rows.Keys;
    while todo != {}
      invariant todo <= rows.Keys
      invariant oldest.Some? ==> oldest.value in rows.Keys - todo && rows[oldest.value].key == key
      invariant forall q :: q in rows.Keys - todo && rows[q].key == key ==>
        oldest.Some? && rows[oldest.value].version <= rows[q].version
      decreases todo
    {
      var q :| q in todo;
      todo := todo - {q};
      if rows[q].key == key && (oldest.None? || rows[q].version < rows[oldest.value].version) {
        oldest := Some(q);
      }
    }
    LatestIs(rows, key);
    if oldest.Some? { assert !Twins(rows, oldest.value, Oldest(rows, key).value); }
  }

  predicate Before(rows: Rows, byVersion: bool, a: Id, b: Id)
    requires a in rows && b in rows
  {
    if byVersion then Precedes(rows, a, b) else CandidateBefore(rows, a, b)
  }

  // The first of the given rows in claim order, or in purge order.
  method FindFirst(rows: Rows, among: set<Id>, byVersion: bool) returns (m: Id)
    requires among != {} && among <= rows.Keys
    ensures m in among && forall x :: x in among && x != m ==> Before(rows, byVersion, m, x)
  {
    m :| m in among;
    var todo := among - {m};
    while todo != {}
      invariant m in among && todo <= among && m !in todo
      invariant forall x :: x in among - todo && x != m ==> Before(rows, byVersion, m, x)
      decreases todo
    {
      var x :| x in todo;
      todo := todo - {x};
      if Before(rows, byVersion, x, m) {
        assert forall y :: y in among - todo && y != m && y != x ==> Before(rows, byVersion, m, y);
        m := x;
      }
    }
  }

  // ORDER BY created_at, version, id LIMIT limit
  method ChooseClaims(rows: Rows, now: Time, filter: Option<Key>, limit: nat) returns (chosen: set<Id>)
    ensures ClaimSet(rows, chosen, now, filter, limit)
  {
    var open := set q | q in rows && Claimable(rows, q, now, filter);
    chosen := {};
    while open != {} && |chosen| < limit
      invariant open !! chosen && |chosen| <= limit
      invariant forall q :: q in open + chosen <==> Claimable(rows, q, now, filter)
      invariant forall c, q :: c in chosen && q in open ==> Precedes(rows, c, q)
      decreases open
    {
      var m := FindFirst(rows, open, true);
      chosen, open := chosen + {m}, open - {m};
    }
  }

  // SELECT id, state ... ORDER BY created_at, id
  method ListCandidates(rows: Rows, closedBefore: Time, deadBefore: Time) returns (candidates: seq<(Id, State)>)
    ensures CandidateList(rows, candidates, closedBefore, deadBefore)
    ensures forall i, j :: 0 <= i < j < |candidates| ==>
      var (a, _), (b, _) := candidates[i], candidates[j];
      rows[a].createdAt < rows[b].createdAt || (rows[a].createdAt == rows[b].createdAt && a < b)
  {
    var left := set q | q in rows && Retired(rows[q], closedBefore, deadBefore);
    candidates := [];
    while left != {}
      invariant left <= rows.Keys
      invariant forall i :: 0 <= i < |candidates| ==> candidates[i].0 in rows && candidates[i].0 !in left
      invariant forall i :: 0 <= i < |candidates| ==>
        rows[candidates[i].0].state == candidates[i].1 && Retired(rows[candidates[i].0], closedBefore, deadBefore)
      invariant forall q :: q in rows && Retired(rows[q], closedBefore, deadBefore) ==>
        q in left || Listed(candidates, q, rows[q].state)
      invariant forall i, j :: 0 <= i < j < |candidates| ==> CandidateBefore(rows, candidates[i].0, candidates[j].0)
      invariant forall i, q :: 0 <= i < |candidates| && q in left ==> CandidateBefore(rows, candidates[i].0, q)
      decreases left
    {
      var m := FindFirst(rows, left, false);
      ghost var before := candidates;
      candidates, left := candidates + [(m, rows[m].state)], left - {m};
      assert forall q, s :: Listed(before, q, s) ==> Listed(candidates, q, s);
      assert Listed(candidates, m, rows[m].state);
    }
  }

  class Store {
    var rows: Rows
    var cameras: map<Id, Camera>
    var items: map<Key, LocalItem>
    var session: Option<Session>

    ghost predicate Valid() reads this { Shape(rows) }

    ghost function View(): Db reads this { Db(rows, cameras, items, session) }

    constructor ()
      ensures Valid() && View() == Db(map[], map[], map[], None)
    {
      rows, cameras, items, session := map[], map[], map[], None;
    }

    method Enqueue(endpoint: Endpoint, payload: Payload, key: Key, maxAttempts: nat,
                   dep: Option<Id>, now: Time, newId: Id) returns (id: Id)
      requires Valid() && newId !in rows && DependencyFits(rows, key, dep)
      modifies this`rows
      ensures Valid() && id == EnqueuedId(old(rows), key, newId)
      ensures rows == SyncModel.Enqueue(old(rows), endpoint, payload, key, maxAttempts, dep, now, newId)
      ensures Queued(old(rows), rows, endpoint, payload, key, maxAttempts, dep, now, newId, id)
    {
      EnqueueQueues(rows, endpoint, payload, key, maxAttempts, dep, now, newId);
      EnqueueShape(rows, endpoint, payload, key, maxAttempts, dep, now, newId);
      LatestIs(rows, key);
      hide Shape, NewRow, Coalesced, DependencyFits, Queued;
      var latest := FindLatest(rows, key);
      if latest.Some? && Coalesces(rows[latest.value]) {
        id := latest.value;
        rows := rows[id := Coalesced(rows[id], endpoint, payload, dep, now)];
        return;
      }
      id := newId;
      var version := if latest.Some? then rows[latest.value].version + 1 else 1;
      rows := rows[id := NewRow(endpoint, payload, key, version, latest, dep, maxAttempts, now)];
    }

    method CreateCamera(camera: Id, config: Config, maxCameras: nat, newId: Id, maxAttempts: nat, now: Time)
      returns (ok: bool)
      requires Valid() && newId !in rows && camera !in cameras
      modifies this`rows, this`cameras
      ensures Valid() && ok == (|old(cameras)| < maxCameras)
      ensures View() == SyncModel.CreateCamera(old(View()), camera, config, maxCameras, newId, maxAttempts, now)
      ensures if ok then exists id :: CreateEffect(old(View()), View(), camera, config, maxAttempts, now, newId, id)
              else View() == old(View())
    {
      CreateTakesEffect(View(), camera, config, maxCameras, newId, maxAttempts, now);
      hide CreateEffect;
      ok := |cameras| < maxCameras;
      if !ok { return; }
      cameras := cameras[camera := Camera(None, false, config)];
      var _ := Enqueue(Cameras, CameraPost(camera, config - {IsActive}), CameraKey(camera), maxAttempts, None, now,
                       newId);
    }

    method UpdateCamera(camera: Id, changes: Config, newId: Id, maxAttempts: nat, now: Time) returns (ok: bool)
      requires Valid() && newId !in rows
      modifies this`rows, this`cameras
      ensures Valid() && ok == (camera in old(cameras))
      ensures View() == SyncModel.UpdateCamera(old(View()), camera, changes, newId, maxAttempts, now)
      ensures if ok then exists id :: UpdateEffect(old(View()), View(), camera, changes, maxAttempts, now, newId, id)
              else View() == old(View())
    {
      UpdateTakesEffect(View(), camera, changes, newId, maxAttempts, now);
      hide UpdateEffect;
      ok := camera in cameras;
      if !ok { return; }
      var current := cameras[camera];
      var config := current.config + changes;
      cameras := cameras[camera := current.(config := config, synced := false)];
      var key := CameraKey(camera);
      LatestIs(rows, key);
      var latest := FindLatest(rows, key);
      if current.serverId.None? && latest.Some?
         && Coalesces(rows[latest.value]) && rows[latest.value].payload.CameraPost? {
        var _ := Enqueue(Cameras, CameraPost(camera, config - {IsActive}), key, maxAttempts, None, now, newId);
      } else {
        var analytics := if AnalyticsConfig in changes || Zones in changes
          then Some(map f | f in config && f in {AnalyticsConfig, Zones} :: config[f]) else None;
        var _ := Enqueue(CameraAt(camera), CameraPatch(camera, changes - {AnalyticsConfig, Zones}, analytics),
                         key, maxAttempts, None, now, newId);
      }
    }

    method DeleteCamera(camera: Id, newId: Id, maxAttempts: nat, now: Time) returns (ok: bool)
      requires Valid() && newId !in rows
      modifies this`rows, this`cameras, this`items
      ensures Valid() && ok == (camera in old(cameras))
      ensures View() == SyncModel.DeleteCamera(old(View()), camera, newId, maxAttempts, now)
      ensures if ok then DeleteEffect(old(View()), View(), camera, maxAttempts, now, newId) else View() == old(View())
    {
      DeleteTakesEffect(View(), camera, newId, maxAttempts, now);
      LatestIs(rows, CameraKey(camera));
      DeletionShape(rows, camera, now);
      hide Shape, CancelWithDependents, DeleteEffect;
      ok := camera in cameras;
      if !ok { return; }
      var latest := FindLatest(rows, CameraKey(camera));
      if cameras[camera].serverId.None? && latest.Some? && Waiting(rows[latest.value]) {
        rows := CancelWithDependents(rows, latest.value, now);
      } else {
        var _ := Enqueue(CameraAt(camera), CameraDelete(camera), CameraKey(camera), maxAttempts, None, now, newId);
      }
      cameras := cameras - {camera};
      items := map k | k in items && items[k].camera != camera :: items[k];
    }

    method AddItem(item: Item, newId: Id, maxAttempts: nat, now: Time) returns (ok: bool)
      requires Valid() && newId !in rows
      modifies this`rows, this`items
      ensures Valid() && View() == SyncModel.AddItem(old(View()), item, newId, maxAttempts, now)
      ensures !ok ==> View() == old(View())
      ensures ok <==> MayAdd(old(View()), item, ItemKey(item))
      ensures ok ==> exists id, dep :: AddEffect(old(View()), View(), item, maxAttempts, now, newId, id, ItemKey(item),
                                                 ItemEndpoint(item), dep)
    {
      AddTakesEffect(View(), item, newId, maxAttempts, now);
      AcceptsIff(View(), item);
      hide AddEffect, MayAdd, ItemKey, ItemEndpoint;
      ok := false;
      if item.camera !in cameras { return; }
      var dep: Option<Id> := None;
      if cameras[item.camera].serverId.None? {
        LatestIs(rows, CameraKey(item.camera));
        dep := FindOldest(rows, CameraKey(item.camera));
        if dep.None? { return; }
      }
      if ItemKey(item) in items { return; }
      items := items[ItemKey(item) := LocalItem(item.camera, false)];
      var _ := Enqueue(ItemEndpoint(item), Deliver(item), ItemKey(item), maxAttempts, dep, now, newId);
      ok := true;
    }

    method Claim(lessee: string, limit: nat, filter: Option<Key>, token: Token, lease: Time, now: Time)
      returns (chosen: set<Id>)
      requires Valid()
      modifies this`rows
      ensures Valid() && ClaimSet(Expire(old(rows), now), chosen, now, filter, limit)
      ensures rows == Lease(Expire(old(rows), now), chosen, token, lessee, now + lease, now)
      ensures FirstClaims(old(rows), chosen, limit, filter, now)
      ensures ClaimEffect(old(rows), rows, chosen, lessee, token, lease, now)
    {
      ghost var before := rows;
      hide ClaimSet, Expire, Lease, FirstClaims, ClaimEffect;
      rows := Expire(rows, now);
      chosen := ChooseClaims(rows, now, filter, limit);
      rows := Lease(rows, chosen, token, lessee, now + lease, now);
      ClaimTakesEffect(before, chosen, lessee, limit, filter, token, lease, now);
      ClaimInPlace(before, chosen, lessee, limit, filter, token, now + lease, now);
      InPlaceKeepsShape(before, rows, Some(token));
    }

    method Complete(id: Id, token: Token, lessee: string, now: Time) returns (ok: bool)
      requires Valid()
      modifies this`rows, this`items
      ensures Valid() && ok == Owned(old(rows), id, token, lessee, now)
      ensures View() == SyncModel.Complete(old(View()), id, token, lessee, now)
      ensures ok <==> HeldBy(old(rows), id, token, lessee, now)
      ensures if ok then CompleteEffect(old(View()), View(), id, now) else View() == old(View())
    {
      CompleteTakesEffect(View(), id, token, lessee, now);
      OwnedIff(rows, id, token, lessee, now);
      SettledShape(rows, id, token, lessee, false, now);
      hide HeldBy, CompleteEffect, Shape;
      ok := Owned(rows, id, token, lessee, now);
      if !ok { return; }
      var key := rows[id].key;
      rows := Succeed(rows, id, now);
      if key in items {
        items := items[key := items[key].(synced := true)];
      }
    }

    method CompleteCamera(id: Id, token: Token, lessee: string, localId: Id, serverId: Id, now: Time) returns (ok: bool)
      requires Valid()
      modifies this`rows, this`cameras
      ensures Valid() && View() == SyncModel.CompleteCamera(old(View()), id, token, lessee, localId, serverId, now)
      ensures ok <==> Owned(old(rows), id, token, lessee, now) && !ServerIdTaken(old(cameras), localId, serverId)
      ensures ok <==> HeldBy(old(rows), id, token, lessee, now) && IdentityFree(old(cameras), localId, serverId)
      ensures if ok then CompleteCameraEffect(old(View()), View(), id, localId, serverId, now)
              else View() == old(View())
    {
      OwnedIff(rows, id, token, lessee, now);
      SettledShape(rows, id, token, lessee, false, now);
      CompleteCameraTakesEffect(View(), id, token, lessee, localId, serverId, now);
      hide HeldBy, CompleteCameraEffect, IdentityFree, ServerIdTaken, Shape;
      ok := Owned(rows, id, token, lessee, now) && !ServerIdTaken(cameras, localId, serverId);
      if !ok { return; }
      rows := Succeed(rows, id, now);
      if localId in cameras {
        cameras := cameras[localId := cameras[localId].(serverId := Some(serverId), synced := true)];
      }
    }

    method CompleteRevocation(id: Id, token: Token, lessee: string, generation: nat, now: Time) returns (ok: bool)
      requires Valid()
      modifies this`rows, this`session
      ensures Valid() && ok == Owned(old(rows), id, token, lessee, now)
      ensures View() == SyncModel.CompleteRevocation(old(View()), id, token, lessee, generation, now)
      ensures ok <==> HeldBy(old(rows), id, token, lessee, now)
      ensures if ok then CompleteRevocationEffect(old(View()), View(), id, generation, now) else View() == old(View())
    {
      OwnedIff(rows, id, token, lessee, now);
      SettledShape(rows, id, token, lessee, false, now);
      CompleteRevocationTakesEffect(View(), id, token, lessee, generation, now);
      hide HeldBy, CompleteRevocationEffect, Shape;
      ok := Owned(rows, id, token, lessee, now);
      if !ok { return; }
      rows := Succeed(rows, id, now);
      if session == Some(Session(generation, RevocationPending)) { session := None; }
    }

    method Fail(id: Id, token: Token, lessee: string, permanent: bool, now: Time) returns (ok: bool)
      requires Valid()
      modifies this`rows
      ensures Valid() && ok == Owned(old(rows), id, token, lessee, now)
      ensures rows == SyncModel.Fail(old(rows), id, token, lessee, permanent, now)
      ensures ok <==> HeldBy(old(rows), id, token, lessee, now)
      ensures if ok then FailEffect(old(rows), rows, id, permanent, now) else rows == old(rows)
    {
      OwnedIff(rows, id, token, lessee, now);
      SettledShape(rows, id, token, lessee, permanent, now);
      FailTakesEffect(rows, id, token, lessee, permanent, now);
      hide HeldBy, FailEffect, Shape, RetryDelay, Owned;
      ok := Owned(rows, id, token, lessee, now);
      if !ok { return; }
      var r := rows[id];
      var dead := permanent || r.attempts >= r.maxAttempts;
      rows := rows[id := Released(r).(state := if dead then DeadLetter else RetryWait,
                                      nextAt := now + RetryDelay(r.attempts),
                                      failedAt := if dead then Some(now) else None)];
    }

    method RetryDeadLetter(id: Id, now: Time) returns (ok: bool)
      requires Valid()
      modifies this`rows
      ensures Valid() && rows == SyncModel.RetryDead(old(rows), id, now)
      ensures ok <==> IsIn(old(rows), id, DeadLetter)
      ensures if ok then RetryEffect(old(rows), rows, id, now) else rows == old(rows)
    {
      DeadLetterTakesEffect(rows, id, now);
      DeadLetterInPlace(rows, id, now);
      InPlaceKeepsShape(rows, SyncModel.RetryDead(rows, id, now), None);
      ok := id in rows && rows[id].state == DeadLetter;
      if ok { rows := rows[id := rows[id].(state := Pending, attempts := 0, nextAt := now, failedAt := None)]; }
    }

    method DiscardDeadLetter(id: Id, now: Time) returns (ok: bool)
      requires Valid()
      modifies this`rows
      ensures Valid() && rows == SyncModel.DiscardDead(old(rows), id, now)
      ensures ok <==> IsIn(old(rows), id, DeadLetter)
      ensures if ok then OthersKept(old(rows), rows, id) && CancelledNow(old(rows)[id], rows[id], now)
              else rows == old(rows)
    {
      DeadLetterTakesEffect(rows, id, now);
      DeadLetterInPlace(rows, id, now);
      InPlaceKeepsShape(rows, SyncModel.DiscardDead(rows, id, now), None);
      ok := id in rows && rows[id].state == DeadLetter;
      if ok { rows := rows[id := rows[id].(state := Cancelled, completedAt := Some(now))]; }
    }

    // One turn of the purge loop: what waits for the row is cancelled, edges to it are nulled, and it is deleted.
    method PurgeCandidate(id: Id, state: State, now: Time)
      requires Valid() && id in rows
      modifies this`rows
      ensures Valid() && rows == PurgeOne(old(rows), id, state, now)
      ensures rows.Keys == old(rows).Keys - {id}
    {
      PurgeOneKeepsShape(rows, id, state, now);
      hide Shape;
      if state == DeadLetter {
        var descendants := FindDescendants(rows, id);
        rows := CancelAll(rows, descendants, now);
      } else if state == Cancelled {
        rows := CancelAll(rows, Dependents(rows, id), now);
      }
      rows := Remove(rows, id);
    }

    method PurgeEach(list: seq<(Id, State)>, now: Time)
      requires Valid()
      requires forall j :: 0 <= j < |list| ==> list[j].0 in rows
      requires forall i, j :: 0 <= i < j < |list| ==> list[i].0 != list[j].0
      modifies this`rows
      ensures Valid() && rows == PurgeAll(old(rows), list, now)
    {
      hide PurgeOne, Shape;
      for i := 0 to |list|
        invariant Valid() && rows == PurgeAll(old(rows), list[..i], now)
        invariant forall j :: i <= j < |list| ==> list[j].0 in rows
      {
        assert list[..i + 1][..i] == list[..i];
        PurgeCandidate(list[i].0, list[i].1, now);
      }
      assert list[..|list|] == list;
    }

    /** The retention purge: its loop over the snapshot is the fold `PurgeAll`. */
    method PurgeRetained(closedBefore: Time, deadBefore: Time, now: Time)
      returns (removed: nat, ghost candidates: seq<(Id, State)>)
      requires Valid()
      modifies this`rows
      ensures Valid() && CandidateList(old(rows), candidates, closedBefore, deadBefore)
      ensures rows == PurgeAll(old(rows), candidates, now) && removed == |candidates|
      ensures PurgeEffect(old(rows), rows, OldRows(old(rows), closedBefore, deadBefore), now)
    {
      hide CandidateList, PurgeAll, Shape, PurgeEffect, OldRows;
      var list := ListCandidates(rows, closedBefore, deadBefore);
      candidates := list;
      ListIsSnapshot(rows, list, closedBefore, deadBefore);
      RetentionTakesEffect(rows, list, closedBefore, deadBefore, now);
      PurgeEach(list, now);
      removed := |list|;
    }
  }

  lemma SettledShape(rows: Rows, id: Id, token: Token, lessee: string, permanent: bool, now: Time)
    requires Shape(rows)
    ensures Owned(rows, id, token, lessee, now) ==>
      Shape(Succeed(rows, id, now)) && Shape(SyncModel.Fail(rows, id, token, lessee, permanent, now))
  {
    if Owned(rows, id, token, lessee, now) {
      SettleInPlace(rows, id, token, lessee, permanent, now);
      hide Shape, InPlace, Succeed, SyncModel.Fail;
      InPlaceKeepsShape(rows, Succeed(rows, id, now), None);
      InPlaceKeepsShape(rows, SyncModel.Fail(rows, id, token, lessee, permanent, now), None);
    }
  }

  lemma AcceptsIff(db: Db, item: Item)
    ensures MayAdd(db, item, ItemKey(item)) <==>
      var d := CameraDependency(db, item.camera); !d.NoCamera? && !d.NoRecord? && ItemKey(item) !in db.items
  {
    DependencyWaits(db, item);
    hide MayAdd, CameraDependency, WaitsForCamera;
  }

  lemma DeletionShape(rows: Rows, camera: Id, now: Time)
    requires Shape(rows)
    ensures forall l :: IsLatest(rows, CameraKey(camera), l) && Waiting(rows[l]) ==>
      Shape(CancelWithDependents(rows, l, now))
  {
    forall l | IsLatest(rows, CameraKey(camera), l) && Waiting(rows[l])
      ensures Shape(CancelWithDependents(rows, l, now))
    {
      CancelsInPlace(rows, l, now);
      InPlaceKeepsShape(rows, CancelWithDependents(rows, l, now), None);
    }
  }

  lemma EnqueueShape(rows: Rows, endpoint: Endpoint, payload: Payload, key: Key,
                     maxAttempts: nat, dep: Option<Id>, now: Time, newId: Id)
    requires Shape(rows) && newId !in rows && DependencyFits(rows, key, dep)
    ensures Shape(Enqueue(rows, endpoint, payload, key, maxAttempts, dep, now, newId))
  {
    var rows' := Enqueue(rows, endpoint, payload, key, maxAttempts, dep, now, newId);
    EnqueueCases(rows, endpoint, payload, key, maxAttempts, dep, now, newId);
    if EnqueuedId(rows, key, newId) == newId {
      InsertKeepsShape(rows, rows', key, newId);
    } else {
      InPlaceKeepsShape(rows, rows', None);
    }
  }
}
