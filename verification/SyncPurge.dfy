/** The retention purge: an acyclic graph, and the version order kept row by row. */
module SyncPurge {
  import opened Prelude
  import opened CentralTables
  import opened SyncModel
  import opened SyncInvariant

  // Every step of a path goes down one key's versions, or from an analytics row to a camera row.
  lemma {:induction false} PathDescends(rows: Rows, path: seq<Id>)
    requires Linked(rows) && IsPath(rows, path) && |path| >= 2
    ensures var q, p := path[0], path[|path| - 1];
            Older(rows, p, q) || (q in rows && p in rows && IsItemKey(rows[q].key) && rows[p].key.CameraKey?)
  {
    if |path| > 2 {
      PathTail(rows, path);
      PathDescends(rows, path[1..]);
    }
    assert Edge(rows, path[0], path[1]) && RowOk(rows, path[0]);
  }

  lemma PathTail(rows: Rows, path: seq<Id>)
    requires IsPath(rows, path) && |path| >= 2
    ensures IsPath(rows, path[1..])
  {
    forall i | 0 <= i < |path[1..]| - 1
      ensures Edge(rows, path[1..][i], path[1..][i + 1])
    {
      assert Edge(rows, path[i + 1], path[i + 2]);
    }
  }

  /** The predecessor/dependency graph has no cycle. */
  lemma GraphAcyclic(rows: Rows, q: Id)
    requires Shape(rows)
    ensures !Reaches(rows, q, q)
  {
    if Reaches(rows, q, q) {
      var path :| IsPath(rows, path) && |path| >= 2 && path[0] == q && path[|path| - 1] == q;
      PathDescends(rows, path);
      assert false;
    }
  }

  // A row that reaches root either points at it or points at a row that reaches it.
  lemma ReachesFirst(rows: Rows, q: Id, root: Id) returns (p: Id)
    requires Reaches(rows, q, root)
    ensures Edge(rows, q, p) && (p == root || Reaches(rows, p, root))
  {
    var path :| IsPath(rows, path) && |path| >= 2 && path[0] == q && path[|path| - 1] == root;
    p := path[1];
    assert Edge(rows, path[0], path[1]);
    if |path| > 2 {
      PathTail(rows, path);
      var tail := path[1..];
      assert tail[0] == p && tail[|tail| - 1] == root;
    }
  }

  lemma CameraReachesDown(rows: Rows, q: Id, root: Id)
    requires Linked(rows) && Reaches(rows, q, root) && q in rows && rows[q].key.CameraKey?
    ensures Older(rows, root, q)
  {
    var path :| IsPath(rows, path) && |path| >= 2 && path[0] == q && path[|path| - 1] == root;
    PathDescends(rows, path);
  }

  function Victims(rows: Rows, id: Id, state: State, dead: set<Id>): set<Id> {
    if state == DeadLetter then dead else if state == Cancelled then Dependents(rows, id) else {}
  }

  // Purging one candidate is one cancellation in place and one removal.
  lemma PurgeOneSplits(rows: Rows, id: Id, state: State, now: Time)
    requires Shape(rows)
    ensures var victims := Victims(rows, id, state, Descendants(rows, id));
            PurgeOne(rows, id, state, now) == Remove(CancelAll(rows, victims, now), id)
            && InPlace(rows, CancelAll(rows, victims, now), None)
  {
    var victims := Victims(rows, id, state, Descendants(rows, id));
    if state != DeadLetter && state != Cancelled {
      assert CancelAll(rows, victims, now) == rows;
    }
    CancelInPlace(rows, victims, now);
  }

  lemma CancelInPlace(rows: Rows, victims: set<Id>, now: Time)
    requires Linked(rows)
    ensures InPlace(rows, CancelAll(rows, victims, now), None)
  {
    var rows' := CancelAll(rows, victims, now);
    forall q | q in rows
      ensures RowStep(rows, rows[q], rows'[q], None)
    {
      assert RowOk(rows, q);
    }
  }

  lemma PurgeOneKeepsOrder(rows: Rows, id: Id, state: State, now: Time, k: Key)
    requires Shape(rows) && Ordered(rows, k) && k != RevokeKey
    ensures Shape(PurgeOne(rows, id, state, now)) && Ordered(PurgeOne(rows, id, state, now), k)
  {
    PurgeOneSplits(rows, id, state, now);
    var cancelled := CancelAll(rows, Victims(rows, id, state, Descendants(rows, id)), now);
    InPlaceKeepsShape(rows, cancelled, None);
    InPlaceKeepsOrder(rows, cancelled, None, k);
    RemoveKeepsShape(cancelled, id);
    RemoveKeepsOrder(cancelled, id, k);
  }

  lemma PurgeOneKeepsShape(rows: Rows, id: Id, state: State, now: Time)
    requires Shape(rows)
    ensures Shape(PurgeOne(rows, id, state, now))
  {
    PurgeOneSplits(rows, id, state, now);
    var cancelled := CancelAll(rows, Victims(rows, id, state, Descendants(rows, id)), now);
    InPlaceKeepsShape(rows, cancelled, None);
    RemoveKeepsShape(cancelled, id);
  }

  // The snapshot entry of a camera row that was dead is still true of that row.
  ghost predicate StillDead(rows: Rows, id: Id, state: State) {
    state == DeadLetter && IsCameraRow(rows, id) ==> rows[id].state == DeadLetter
  }

  // A leased camera row is below no dead one.
  lemma LeasedCameraBelowNoDead(rows: Rows, x: Id, id: Id)
    requires Shape(rows) && (forall c :: Ordered(rows, CameraKey(c)))
    requires IsCameraRow(rows, x) && Leased(rows[x]) && StillDead(rows, id, DeadLetter)
    ensures !Reaches(rows, x, id)
  {
    if Reaches(rows, x, id) {
      CameraReachesDown(rows, x, id);
      assert false;
    }
  }

  lemma PurgeOneKeepsDead(rows: Rows, id: Id, state: State, now: Time, x: Id, xs: State)
    requires Shape(rows) && (forall c :: Ordered(rows, CameraKey(c)))
    requires StillDead(rows, id, state) && StillDead(rows, x, xs) && x != id
    ensures StillDead(PurgeOne(rows, id, state, now), x, xs)
  {
    if xs == DeadLetter && IsCameraRow(rows, x) {
      assert RowOk(rows, x);
      if state == DeadLetter {
        LeasedCameraBelowNoDead(rows, x, id);
      }
    }
  }

  lemma CancelledAboveOpenIsRemoved(rows: Rows, id: Id, a: Id, b: Id)
    requires Shape(rows) && (forall c :: Ordered(rows, CameraKey(c))) && StillDead(rows, id, DeadLetter)
    requires Older(rows, a, b) && rows[b].key.CameraKey? && !Closed(rows[a]) && !Closed(rows[b])
    requires Reaches(rows, b, id)
    ensures a == id
  {
    assert Ordered(rows, CameraKey(rows[b].key.camera));
    var p := ReachesFirst(rows, b, id);
    assert RowOk(rows, b);
    if p != id {
      CameraReachesDown(rows, p, id);
      assert false;
    }
  }

  lemma PurgeOneKeepsBuried(rows: Rows, id: Id, state: State, now: Time, cameras: map<Id, Camera>)
    requires Shape(rows) && (forall c :: Ordered(rows, CameraKey(c))) && Buried(rows, cameras)
    requires StillDead(rows, id, state)
    ensures Buried(PurgeOne(rows, id, state, now), cameras)
  {
    var rows' := PurgeOne(rows, id, state, now);
    forall a, b | Older(rows', a, b) && rows'[b].key.CameraKey? && !Closed(rows'[a]) && Closed(rows'[b])
      ensures rows'[b].key.camera !in cameras
    {
      assert Older(rows, a, b) && !Closed(rows[a]) && a != id && RowOk(rows, b);
      if !Closed(rows[b]) {
        if state == DeadLetter { CancelledAboveOpenIsRemoved(rows, id, a, b); }
        assert false;
      }
    }
  }

  // ---------------------------------------------------------------- the whole purge

  ghost predicate SnapshotHolds(rows: Rows, candidates: seq<(Id, State)>) {
    (forall i :: 0 <= i < |candidates| ==> StillDead(rows, candidates[i].0, candidates[i].1)) &&
    (forall i, j :: 0 <= i < j < |candidates| ==> candidates[i].0 != candidates[j].0)
  }

  lemma {:induction false} PurgeKeepsOrder(rows: Rows, candidates: seq<(Id, State)>, now: Time, k: Key)
    requires Shape(rows) && Ordered(rows, k) && k != RevokeKey
    ensures Shape(PurgeAll(rows, candidates, now)) && Ordered(PurgeAll(rows, candidates, now), k)
  {
    if candidates != [] {
      var n := |candidates| - 1;
      PurgeKeepsOrder(rows, candidates[..n], now, k);
      PurgeOneKeepsOrder(PurgeAll(rows, candidates[..n], now), candidates[n].0, candidates[n].1, now, k);
    }
  }

  lemma {:induction false} PurgeKeepsShape(rows: Rows, candidates: seq<(Id, State)>, now: Time)
    requires Shape(rows)
    ensures Shape(PurgeAll(rows, candidates, now))
  {
    if candidates != [] {
      var n := |candidates| - 1;
      PurgeKeepsShape(rows, candidates[..n], now);
      PurgeOneKeepsShape(PurgeAll(rows, candidates[..n], now), candidates[n].0, candidates[n].1, now);
    }
  }

  // After the first n candidates, the snapshot still holds for the others.
  lemma {:induction false} PurgeKeepsBuried(rows: Rows, candidates: seq<(Id, State)>, n: nat, now: Time,
                                            cameras: map<Id, Camera>)
    requires Shape(rows) && (forall c :: Ordered(rows, CameraKey(c))) && Buried(rows, cameras)
    requires SnapshotHolds(rows, candidates) && n <= |candidates|
    ensures var rows' := PurgeAll(rows, candidates[..n], now);
            Shape(rows') && (forall c :: Ordered(rows', CameraKey(c))) && Buried(rows', cameras)
            && forall i :: n <= i < |candidates| ==> StillDead(rows', candidates[i].0, candidates[i].1)
  {
    if n == 0 {
      assert candidates[..n] == [];
    } else {
      PurgeKeepsBuried(rows, candidates, n - 1, now, cameras);
      assert candidates[..n][..n - 1] == candidates[..n - 1];
      var before := PurgeAll(rows, candidates[..n - 1], now);
      var (id, state) := candidates[n - 1];
      PurgeOneKeepsBuried(before, id, state, now, cameras);
      PurgeOneKeepsShape(before, id, state, now);
      forall c ensures Ordered(PurgeOne(before, id, state, now), CameraKey(c)) {
        PurgeOneKeepsOrder(before, id, state, now, CameraKey(c));
      }
      forall i | n <= i < |candidates|
        ensures StillDead(PurgeOne(before, id, state, now), candidates[i].0, candidates[i].1)
      {
        PurgeOneKeepsDead(before, id, state, now, candidates[i].0, candidates[i].1);
      }
    }
  }

  lemma ListIsSnapshot(rows: Rows, candidates: seq<(Id, State)>, closedBefore: Time, deadBefore: Time)
    requires CandidateList(rows, candidates, closedBefore, deadBefore)
    ensures SnapshotHolds(rows, candidates)
  {
    forall i, j | 0 <= i < j < |candidates|
      ensures candidates[i].0 != candidates[j].0
    {
      assert CandidateBefore(rows, candidates[i].0, candidates[j].0);
    }
  }
}
