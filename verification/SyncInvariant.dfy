/**
 What every transaction on the outbox keeps: the shape of a row, the version
 chain of each logical key, and the order in which the rows of one key may be
 leased.
 */
module SyncInvariant {
  import opened Prelude
  import opened CentralTables
  import opened SyncModel

  // ---------------------------------------------------------------- invariants

  ghost predicate LocalShape(r: Row) {
    && r.version >= 1
    && (r.state == Inflight <==> r.token.Some?)
    && (r.state == Inflight ==> r.leaseExp.Some? && r.owner.Some?)
    && (r.state in {Inflight, RetryWait, DeadLetter, Succeeded} ==> Leased(r))
    && (r.state == DeadLetter ==> r.failedAt.Some?)
    && (Closed(r) ==> r.completedAt.Some?)
    && (r.dep.Some? ==> IsItemKey(r.key))
  }

  ghost predicate IsCameraRow(rows: Rows, d: Id) { d in rows && rows[d].key.CameraKey? }

  ghost predicate RowOk(rows: Rows, q: Id) {
    && q in rows && LocalShape(rows[q])
    && (rows[q].pred.Some? ==> var p := rows[q].pred.value;
          p in rows && rows[p].key == rows[q].key && rows[p].version + 1 == rows[q].version)
    && (rows[q].dep.Some? ==> IsCameraRow(rows, rows[q].dep.value))
  }

  ghost predicate Linked(rows: Rows) {
    forall q {:trigger RowOk(rows, q)} :: q in rows ==> RowOk(rows, q)
  }

  // Two rows with the same key and version, which UNIQUE(logical_key, version) forbids.
  ghost predicate Twins(rows: Rows, a: Id, b: Id) {
    a in rows && b in rows && a != b && rows[a].key == rows[b].key && rows[a].version == rows[b].version
  }

  ghost predicate Distinct(rows: Rows) {
    forall a, b {:trigger Twins(rows, a, b)} :: !Twins(rows, a, b)
  }

  // Older than: same logical key, lower version.
  ghost predicate Older(rows: Rows, a: Id, b: Id) {
    a in rows && b in rows && rows[a].key == rows[b].key && rows[a].version < rows[b].version
  }

  // Only the newest row of a key can be unleased and still open.
  ghost predicate Superseded(rows: Rows) {
    forall a, b :: Older(rows, a, b) ==> Leased(rows[a]) || Closed(rows[a])
  }

  ghost predicate Shape(rows: Rows) { Linked(rows) && Distinct(rows) && Superseded(rows) }

  // If an older row is open, the row above it is the newest one, has never been
  // leased, and is closed or waits for exactly that older row.
  ghost predicate Ordered(rows: Rows, k: Key) {
    forall a, b :: Older(rows, a, b) && rows[b].key == k && !Closed(rows[a]) ==>
      IsLatest(rows, k, b) && !Leased(rows[b]) && (Closed(rows[b]) || rows[b].pred == Some(a))
  }

  // A closed row above an open one only exists once its camera is gone.
  ghost predicate Buried(rows: Rows, cameras: map<Id, Camera>) {
    forall a, b :: Older(rows, a, b) && rows[b].key.CameraKey? && !Closed(rows[a]) && Closed(rows[b]) ==>
      rows[b].key.camera !in cameras
  }

  ghost predicate CamerasOrdered(db: Db) {
    (forall c :: Ordered(db.rows, CameraKey(c))) && Buried(db.rows, db.cameras)
  }

  // The newest row of the key is not closed above an open one.
  ghost predicate NoneStranded(rows: Rows, k: Key) {
    forall a, b :: Older(rows, a, b) && rows[b].key == k && IsLatest(rows, k, b) && Closed(rows[b]) ==> Closed(rows[a])
  }

  ghost predicate MayBeLeased(rows: Rows, b: Id) {
    b in rows && (Leased(rows[b]) || (!Closed(rows[b]) && PredGate(rows, rows[b])))
  }

  // The claim that the version order is for: a row that was leased, or that
  // nothing but its dependency and the clock keeps from being leased, has only
  // closed rows below it.
  ghost predicate SafeToLease(rows: Rows, k: Key) {
    forall a, b :: Older(rows, a, b) && rows[b].key == k && MayBeLeased(rows, b) ==> Closed(rows[a])
  }

  // ------------------------------------------------------ newest version exists

  lemma {:induction false} LatestExists(rows: Rows, k: Key, q: Id)
    requires q in rows && rows[q].key == k
    ensures exists id :: IsLatest(rows, k, id)
    ensures exists id :: IsOldest(rows, k, id)
  {
    var same := set x | x in rows && rows[x].key == k;
    assert q in same;
    var hi := Extreme(rows, same, true);
    var lo := Extreme(rows, same, false);
    assert IsLatest(rows, k, hi) && IsOldest(rows, k, lo);
  }

  // An element of s with the greatest (or least) version.
  lemma {:induction false} Extreme(rows: Rows, s: set<Id>, top: bool) returns (m: Id)
    requires s != {} && s <= rows.Keys
    ensures m in s
    ensures forall x :: x in s ==>
      if top then rows[x].version <= rows[m].version else rows[m].version <= rows[x].version
    decreases s
  {
    var x :| x in s;
    if s == {x} {
      m := x;
    } else {
      var rest := s - {x};
      assert rest != {};
      var r := Extreme(rows, rest, top);
      m := if (top && rows[r].version < rows[x].version) || (!top && rows[x].version < rows[r].version) then x else r;
    }
  }

  lemma LatestIs(rows: Rows, k: Key)
    ensures Latest(rows, k).Some? ==> IsLatest(rows, k, Latest(rows, k).value)
    ensures Latest(rows, k).None? ==> forall q :: q in rows ==> rows[q].key != k
    ensures Oldest(rows, k).Some? ==> IsOldest(rows, k, Oldest(rows, k).value)
    ensures Oldest(rows, k).None? ==> forall q :: q in rows ==> rows[q].key != k
  {
    forall q | q in rows && rows[q].key == k
      ensures Latest(rows, k).Some? && Oldest(rows, k).Some?
    {
      LatestExists(rows, k, q);
    }
  }

  // ------------------------------------------------------------ changes in place

  // How one row may change without rows being added or removed.
  ghost predicate RowStep(rows: Rows, r: Row, r': Row, issued: Option<Token>) {
    && LocalShape(r')
    && r'.key == r.key && r'.version == r.version && r'.pred == r.pred
    && (r'.dep.Some? ==> IsCameraRow(rows, r'.dep.value))
    && (Leased(r) ==> Leased(r'))
    && (Leased(r') ==> r'.endpoint == r.endpoint && r'.payload == r.payload && r'.dep == r.dep)
    && (Closed(r) ==> Closed(r'))
    && (r.dep.Some? ==> r'.dep.Some?)
    && (r'.state == Succeeded ==> r.state == Succeeded || r.state == Inflight)
    && (r'.token.Some? ==> r'.token == r.token || r'.token == issued)
    && (Leased(r') && !Leased(r) ==> !Closed(r) && (r.key != RevokeKey ==> PredGate(rows, r) && DepGate(rows, r)))
  }

  ghost predicate InPlace(rows: Rows, rows': Rows, issued: Option<Token>) {
    rows'.Keys == rows.Keys && forall q {:trigger rows'[q]} :: q in rows ==> RowStep(rows, rows[q], rows'[q], issued)
  }

  lemma InPlaceKeepsShape(rows: Rows, rows': Rows, issued: Option<Token>)
    requires Shape(rows) && InPlace(rows, rows', issued)
    ensures Shape(rows')
  {
    forall q | q in rows'
      ensures RowOk(rows', q)
    {
      assert RowOk(rows, q) && RowStep(rows, rows[q], rows'[q], issued);
    }
    forall a, b ensures !Twins(rows', a, b) { assert !Twins(rows, a, b); }
    forall a, b | Older(rows', a, b)
      ensures Leased(rows'[a]) || Closed(rows'[a])
    {
      assert Older(rows, a, b);
    }
  }

  lemma InPlaceKeepsOrder(rows: Rows, rows': Rows, issued: Option<Token>, k: Key)
    requires k != RevokeKey && InPlace(rows, rows', issued) && Ordered(rows, k)
    ensures Ordered(rows', k)
  {
    forall a, b | Older(rows', a, b) && rows'[b].key == k && !Closed(rows'[a])
      ensures IsLatest(rows', k, b) && !Leased(rows'[b]) && (Closed(rows'[b]) || rows'[b].pred == Some(a))
    {
      assert Older(rows, a, b) && !Closed(rows[a]);
    }
  }

  // Rows that close in place must have been leased, or their camera must be gone.
  lemma InPlaceKeepsBuried(rows: Rows, rows': Rows, issued: Option<Token>, cameras: map<Id, Camera>,
                           cameras': map<Id, Camera>)
    requires InPlace(rows, rows', issued) && (forall c :: Ordered(rows, CameraKey(c))) && Buried(rows, cameras)
    requires cameras'.Keys <= cameras.Keys
    requires forall q :: q in rows && rows[q].key.CameraKey? && Closed(rows'[q]) && !Closed(rows[q]) ==>
               Leased(rows[q]) || rows[q].key.camera !in cameras'
    ensures Buried(rows', cameras')
  {
    forall a, b | Older(rows', a, b) && rows'[b].key.CameraKey? && !Closed(rows'[a]) && Closed(rows'[b])
      ensures rows'[b].key.camera !in cameras'
    {
      assert Older(rows, a, b) && !Closed(rows[a]);
      assert Ordered(rows, rows[b].key) by { assert rows[b].key == CameraKey(rows[b].key.camera); }
    }
  }

  // -------------------------------------------------------------------- enqueue

  ghost predicate DependencyFits(rows: Rows, key: Key, dep: Option<Id>) {
    dep.Some? ==> IsItemKey(key) && IsCameraRow(rows, dep.value)
  }

  ghost predicate IsInsert(rows: Rows, rows': Rows, key: Key, newId: Id) {
    && newId !in rows && newId in rows' && rows' == rows[newId := rows'[newId]]
    && LocalShape(rows'[newId]) && rows'[newId].key == key
    && rows'[newId].state == Pending && !Leased(rows'[newId])
    && (rows'[newId].dep.Some? ==> IsCameraRow(rows, rows'[newId].dep.value))
    && (if rows'[newId].pred.Some?
        then IsLatest(rows, key, rows'[newId].pred.value)
             && !Coalesces(rows[rows'[newId].pred.value])
             && rows'[newId].version == rows[rows'[newId].pred.value].version + 1
        else forall q :: q in rows ==> rows[q].key != key)
  }

  // `_enqueue` either rewrites the newest row of the key in place or adds one row above it.
  lemma EnqueueCases(rows: Rows, endpoint: Endpoint, payload: Payload, key: Key,
                     maxAttempts: nat, dep: Option<Id>, now: Time, newId: Id)
    requires Shape(rows) && newId !in rows && DependencyFits(rows, key, dep)
    ensures var rows' := Enqueue(rows, endpoint, payload, key, maxAttempts, dep, now, newId);
            if EnqueuedId(rows, key, newId) == newId
            then IsInsert(rows, rows', key, newId) && rows'[newId].dep == dep
            else var l := EnqueuedId(rows, key, newId);
                 IsLatest(rows, key, l) && Coalesces(rows[l]) && InPlace(rows, rows', None)
                 && rows' == rows[l := rows'[l]] && !Leased(rows'[l]) && rows'[l].state == Pending
                 && rows'[l].dep == (if dep.Some? then dep else rows[l].dep)
  {
    LatestIs(rows, key);
    var rows' := Enqueue(rows, endpoint, payload, key, maxAttempts, dep, now, newId);
    if EnqueuedId(rows, key, newId) != newId {
      forall q | q in rows ensures RowStep(rows, rows[q], rows'[q], None) { assert RowOk(rows, q); }
    }
  }

  lemma InsertKeepsShape(rows: Rows, rows': Rows, key: Key, newId: Id)
    requires Shape(rows) && IsInsert(rows, rows', key, newId)
    ensures Shape(rows')
  {
    forall q | q in rows'
      ensures RowOk(rows', q)
    {
      if q != newId { assert RowOk(rows, q); }
    }
    forall a, b ensures !Twins(rows', a, b) { assert !Twins(rows, a, b); }
    forall a, b | Older(rows', a, b)
      ensures Leased(rows'[a]) || Closed(rows'[a])
    {
      if b == newId {
        var l := rows'[newId].pred.value;
        if a != l {
          assert !Twins(rows, a, l);
          assert Older(rows, a, l);
        }
      } else if a == newId {
        assert false;
      } else {
        assert Older(rows, a, b);
      }
    }
  }

  lemma InsertKeepsOrder(rows: Rows, rows': Rows, key: Key, newId: Id, k: Key)
    requires Shape(rows) && IsInsert(rows, rows', key, newId) && Ordered(rows, k)
    requires k == key ==> NoneStranded(rows, key)
    ensures Ordered(rows', k)
  {
    forall b: Id | IsLatest(rows, key, b) && rows'[newId].pred.Some? ensures rows'[newId].pred == Some(b) {
      assert !Twins(rows, b, rows'[newId].pred.value);
    }
    forall a, b | Older(rows', a, b) && rows'[b].key == k && !Closed(rows'[a])
      ensures IsLatest(rows', k, b) && !Leased(rows'[b]) && (Closed(rows'[b]) || rows'[b].pred == Some(a))
    {
      if b == newId {
        var l := rows'[newId].pred.value;
        assert !Twins(rows, a, l) && RowOk(rows, l);
        assert a == l || Older(rows, a, l);
      } else if a == newId {
        assert false;
      } else {
        assert Older(rows, a, b) && RowOk(rows, b);
        if k == key {
          assert false;
        }
      }
    }
  }

  lemma LatestUnique(rows: Rows, k: Key, a: Id, b: Id)
    requires Distinct(rows) && IsLatest(rows, k, a) && IsLatest(rows, k, b)
    ensures a == b
  {
    assert !Twins(rows, a, b);
  }

  lemma InsertKeepsBuried(rows: Rows, rows': Rows, key: Key, newId: Id, cameras: map<Id, Camera>,
                          cameras': map<Id, Camera>)
    requires Shape(rows) && IsInsert(rows, rows', key, newId) && Buried(rows, cameras)
    requires forall c :: c in cameras' && c !in cameras ==> key == CameraKey(c) && rows'[newId].pred.None?
    ensures Buried(rows', cameras')
  {
    forall a, b | Older(rows', a, b) && rows'[b].key.CameraKey? && !Closed(rows'[a]) && Closed(rows'[b])
      ensures rows'[b].key.camera !in cameras'
    {
      if a == newId {
        assert false;
      } else {
        assert Older(rows, a, b);
      }
    }
  }

  // While a camera exists, the newest row of its key is never closed above an open one.
  lemma LiveCameraNotStranded(db: Db, c: Id)
    requires c in db.cameras && Buried(db.rows, db.cameras)
    ensures NoneStranded(db.rows, CameraKey(c))
  {
  }

  /** Enqueueing keeps the version order of its key exactly when the newest row
      of the key is not closed above an open one. */
  lemma EnqueueSafeIff(rows: Rows, endpoint: Endpoint, payload: Payload, key: Key,
                       maxAttempts: nat, dep: Option<Id>, now: Time, newId: Id)
    requires Shape(rows) && newId !in rows && DependencyFits(rows, key, dep) && key != RevokeKey
    requires Ordered(rows, key)
    ensures SafeToLease(Enqueue(rows, endpoint, payload, key, maxAttempts, dep, now, newId), key)
            <==> NoneStranded(rows, key)
    ensures NoneStranded(rows, key) ==>
            Ordered(Enqueue(rows, endpoint, payload, key, maxAttempts, dep, now, newId), key)
  {
    var rows' := Enqueue(rows, endpoint, payload, key, maxAttempts, dep, now, newId);
    EnqueueCases(rows, endpoint, payload, key, maxAttempts, dep, now, newId);
    if EnqueuedId(rows, key, newId) != newId {
      CoalesceNotStranded(rows, key, EnqueuedId(rows, key, newId));
      InPlaceKeepsOrder(rows, rows', None, key);
      OrderedIsSafe(rows', key);
    } else if NoneStranded(rows, key) {
      InsertKeepsOrder(rows, rows', key, newId, key);
      OrderedIsSafe(rows', key);
    } else {
      StrandedInsertUnsafe(rows, rows', key, newId);
    }
  }

  lemma CoalesceNotStranded(rows: Rows, key: Key, l: Id)
    requires Distinct(rows) && IsLatest(rows, key, l) && Coalesces(rows[l])
    ensures NoneStranded(rows, key)
  {
    forall b: Id | IsLatest(rows, key, b) ensures b == l { assert !Twins(rows, l, b); }
  }

  lemma StrandedInsertUnsafe(rows: Rows, rows': Rows, key: Key, newId: Id)
    requires Shape(rows) && IsInsert(rows, rows', key, newId) && !NoneStranded(rows, key)
    ensures !SafeToLease(rows', key)
  {
    var a, b :| Older(rows, a, b) && rows[b].key == key && IsLatest(rows, key, b)
                && Closed(rows[b]) && !Closed(rows[a]);
    LatestUnique(rows, key, b, rows'[newId].pred.value);
    assert Older(rows', a, newId) && MayBeLeased(rows', newId);
  }

  lemma OrderedIsSafe(rows: Rows, k: Key)
    requires Ordered(rows, k)
    ensures SafeToLease(rows, k)
  {
  }

  // ---------------------------------------------------------------------- removal

  lemma RemoveKeepsShape(rows: Rows, id: Id)
    requires Shape(rows)
    ensures Shape(Remove(rows, id))
  {
    var rows' := Remove(rows, id);
    forall q | q in rows'
      ensures RowOk(rows', q)
    {
      assert RowOk(rows, q);
    }
    forall a, b ensures !Twins(rows', a, b) { assert !Twins(rows, a, b); }
    forall a, b | Older(rows', a, b)
      ensures Leased(rows'[a]) || Closed(rows'[a])
    {
      assert Older(rows, a, b);
    }
  }

  lemma RemoveKeepsOrder(rows: Rows, id: Id, k: Key)
    requires Ordered(rows, k)
    ensures Ordered(Remove(rows, id), k)
  {
    var rows' := Remove(rows, id);
    forall a, b | Older(rows', a, b) && rows'[b].key == k && !Closed(rows'[a])
      ensures IsLatest(rows', k, b) && !Leased(rows'[b]) && (Closed(rows'[b]) || rows'[b].pred == Some(a))
    {
      assert Older(rows, a, b) && a != id;
    }
  }
}
