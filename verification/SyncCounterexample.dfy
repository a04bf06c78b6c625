/**
 Why the version order of event, alert and count rows needs a condition: their
 identifiers may come from the caller, and deleting a camera frees the local
 identifier while older queue rows for it are still open.  The run below puts
 two rows of one event in flight together.
 */
module SyncCounterexample {
  import opened Prelude
  import opened CentralTables
  import opened SyncModel
  import opened SyncInvariant
  import opened SyncHistory
  import opened SyncRuns
  import opened SyncTheorems

  ghost predicate Reachable(w: World) {
    exists ops :: Runnable(Empty, ops) && Exec(Empty, ops) == w
  }

  lemma {:induction false} RunAppend(w: World, ops: seq<Op>, op: Op)
    requires Runnable(w, ops) && Enabled(Exec(w, ops), op)
    ensures Runnable(w, ops + [op]) && Exec(w, ops + [op]) == Next(Exec(w, ops), op)
    decreases |ops|
  {
    hide Enabled, Next;
    if ops == [] {
      assert ops + [op] == [op] && [op][1..] == [];
    } else {
      RunAppend(Next(w, ops[0]), ops[1..], op);
      assert (ops + [op])[1..] == ops[1..] + [op];
    }
  }

  lemma ReachStep(w: World, op: Op)
    requires Reachable(w) && Enabled(w, op)
    ensures Reachable(Next(w, op))
  {
    hide Enabled, Next;
    var ops :| Runnable(Empty, ops) && Exec(Empty, ops) == w;
    RunAppend(Empty, ops, op);
  }

  // A reachable world with this database and at most these identifiers used.
  ghost predicate At(w: World, db: Db, ids: set<Id>, tokens: set<Token>, cameras: set<Id>) {
    Reachable(w) && w.db == db && w.log.ids <= ids && w.log.tokens <= tokens && w.log.cameras <= cameras
  }

  ghost predicate Uses(db: Db, ids: set<Id>, tokens: set<Token>, cameras: set<Id>) {
    && db.rows.Keys <= ids && db.cameras.Keys <= cameras
    && (forall q :: q in db.rows && db.rows[q].token.Some? ==> db.rows[q].token.value in tokens)
    && (forall q :: q in db.rows && db.rows[q].key.CameraKey? ==> db.rows[q].key.camera in cameras)
  }

  lemma Advance(w: World, op: Op, db: Db, db': Db, ids: set<Id>, tokens: set<Token>, cameras: set<Id>,
                ids': set<Id>, tokens': set<Token>, cameras': set<Id>)
    requires At(w, db, ids, tokens, cameras) && Enabled(w, op) && Apply(db, op) == db'
    requires ids <= ids' && tokens <= tokens' && cameras <= cameras' && Uses(db', ids', tokens', cameras')
    ensures At(Next(w, op), db', ids', tokens', cameras')
  {
    hide Apply, Enabled;
    ReachStep(w, op);
  }

  lemma LatestIsOnly(rows: Rows, k: Key, id: Id)
    requires IsLatest(rows, k, id)
    requires forall q :: q in rows && q != id && rows[q].key == k ==> rows[q].version < rows[id].version
    ensures Latest(rows, k) == Some(id)
  {
    LatestIs(rows, k);
  }

  lemma LatestIsNone(rows: Rows, k: Key)
    requires forall q :: q in rows ==> rows[q].key != k
    ensures Latest(rows, k) == None && Oldest(rows, k) == None
  {
  }

  // ------------------------------------------------------------------------ the rows

  const atCamera1 := Event(7, 1, "motion", Json("{}"), None, 0)
  const atCamera2 := Event(7, 2, "motion", Json("{}"), None, 0)
  const atCamera3 := Event(7, 3, "motion", Json("{}"), None, 0)

  function Post(c: Id): Row { NewRow(Cameras, CameraPost(c, map[]), CameraKey(c), 1, None, None, 8, 0) }
  function Sent(r: Row, t: Token): Row {
    r.(state := Inflight, token := Some(t), owner := Some("w"), leaseExp := Some(1), lastAttempt := Some(0),
       attempts := 1)
  }
  function Done(r: Row): Row { Released(r).(state := Succeeded, completedAt := Some(0)) }
  function Off(r: Row): Row { r.(state := Cancelled, completedAt := Some(0)) }

  const synced1 := Done(Sent(Post(1), 100))
  const synced3 := Done(Sent(Post(3), 100))
  const drop1 := NewRow(CameraAt(1), CameraDelete(1), CameraKey(1), 2, Some(10), None, 8, 0)
  const row1 := NewRow(SyncEvents, Deliver(atCamera1), EventKey(7), 1, None, None, 8, 0)
  const row2 := NewRow(SyncEvents, Deliver(atCamera2), EventKey(7), 2, Some(20), Some(11), 8, 0)
  const row3 := NewRow(SyncEvents, Deliver(atCamera3), EventKey(7), 3, Some(21), None, 8, 0)

  const fresh0 := Camera(None, false, map[])
  function Synced(c: Id): Camera { Camera(Some(c), true, map[]) }

  const after1 := Db(map[10 := Post(1)], map[1 := fresh0], map[], None)
  const after2 := Db(map[10 := Post(1), 12 := Post(3)], map[1 := fresh0, 3 := fresh0], map[], None)
  const after3 := Db(map[10 := Sent(Post(1), 100), 12 := Sent(Post(3), 100)], map[1 := fresh0, 3 := fresh0], map[],
                     None)
  const after4 := Db(map[10 := synced1, 12 := Sent(Post(3), 100)], map[1 := Synced(1), 3 := fresh0], map[], None)
  const after5 := Db(map[10 := synced1, 12 := synced3], map[1 := Synced(1), 3 := Synced(3)], map[], None)
  const after6 := Db(map[10 := synced1, 12 := synced3, 20 := row1], map[1 := Synced(1), 3 := Synced(3)],
                 map[EventKey(7) := LocalItem(1, false)], None)
  const after7 := Db(map[10 := synced1, 12 := synced3, 20 := Sent(row1, 101)], map[1 := Synced(1), 3 := Synced(3)],
                 map[EventKey(7) := LocalItem(1, false)], None)
  const after8 := Db(map[10 := synced1, 12 := synced3, 20 := Sent(row1, 101), 13 := drop1], map[3 := Synced(3)], map[],
                     None)
  const after9 := Db(map[10 := synced1, 12 := synced3, 20 := Sent(row1, 101), 13 := drop1, 11 := Post(2)],
                 map[3 := Synced(3), 2 := fresh0], map[], None)
  const after10 := Db(map[10 := synced1, 12 := synced3, 20 := Sent(row1, 101), 13 := drop1, 11 := Post(2), 21 := row2],
                  map[3 := Synced(3), 2 := fresh0], map[EventKey(7) := LocalItem(2, false)], None)
  const after11 := Db(map[10 := synced1, 12 := synced3, 20 := Sent(row1, 101), 13 := drop1, 11 := Off(Post(2)),
                          21 := Off(row2)],
                  map[3 := Synced(3)], map[], None)
  const after12 := Db(map[10 := synced1, 12 := synced3, 20 := Sent(row1, 101), 13 := drop1, 11 := Off(Post(2)),
                          21 := Off(row2), 22 := row3],
                  map[3 := Synced(3)], map[EventKey(7) := LocalItem(3, false)], None)
  const after13 := after12.(rows := after12.rows[13 := Sent(drop1, 102)][22 := Sent(row3, 102)])

  const op1 := OpCreateCamera(1, map[], 9, 10, 8, 0)
  const op2 := OpCreateCamera(3, map[], 9, 12, 8, 0)
  const op3 := OpClaim({10, 12}, "w", 500, None, 100, 1, 0)
  const op4 := OpCompleteCamera(10, 100, "w", 1, 1, 0)
  const op5 := OpCompleteCamera(12, 100, "w", 3, 3, 0)
  const op6 := OpAddItem(atCamera1, 20, 8, 0)
  const op7 := OpClaim({20}, "w", 500, None, 101, 1, 0)
  const op8 := OpDeleteCamera(1, 13, 8, 0)
  const op9 := OpCreateCamera(2, map[], 9, 11, 8, 0)
  const op10 := OpAddItem(atCamera2, 21, 8, 0)
  const op11 := OpDeleteCamera(2, 14, 8, 0)
  const op12 := OpAddItem(atCamera3, 22, 8, 0)
  const op13 := OpClaim({13, 22}, "w", 500, None, 102, 1, 0)

  lemma CreateStep(db: Db, c: Id, id: Id)
    requires |db.cameras| < 9 && c !in db.cameras && forall q :: q in db.rows ==> db.rows[q].key != CameraKey(c)
    ensures CreateCamera(db, c, map[], 9, id, 8, 0) ==
            db.(cameras := db.cameras[c := fresh0], rows := db.rows[id := Post(c)])
  {
    LatestIsNone(db.rows, CameraKey(c));
    var none: Config := map[];
    assert none - {IsActive} == none;
  }

  // A claim that takes every claimable row, when no lease has expired.
  lemma ClaimStep(db: Db, chosen: set<Id>, filter: Option<Key>, token: Token)
    requires forall q :: q in db.rows && db.rows[q].leaseExp.Some? ==> db.rows[q].leaseExp.value >= 0
    requires |chosen| <= 500 && forall q :: Claimable(db.rows, q, 0, filter) <==> q in chosen
    ensures WellFormed(db, OpClaim(chosen, "w", 500, filter, token, 1, 0))
    ensures Apply(db, OpClaim(chosen, "w", 500, filter, token, 1, 0))
         == db.(rows := Lease(db.rows, chosen, token, "w", 1, 0))
  {
    assert Expire(db.rows, 0) == db.rows;
  }

  lemma Effect1()
    ensures Apply(Empty.db, op1) == after1
  {
    CreateStep(Empty.db, 1, 10);
  }

  lemma Effect2()
    ensures Apply(after1, op2) == after2
  {
    CreateStep(after1, 3, 12);
  }

  lemma Effect3()
    ensures Apply(after2, op3) == after3 && WellFormed(after2, op3)
  {
    Leases3();
    hide Claimable, Lease;
    ClaimStep(after2, {10, 12}, None, 100);
  }

  lemma Leases3()
    ensures forall q :: Claimable(after2.rows, q, 0, None) <==> q in {10, 12}
    ensures Lease(after2.rows, {10, 12}, 100, "w", 1, 0) == after3.rows
  {
  }

  lemma Effect4()
    ensures Apply(after3, op4) == after4
  {
    assert Owned(after3.rows, 10, 100, "w", 0);
    assert Succeed(after3.rows, 10, 0) == after4.rows;
  }

  lemma Effect5()
    ensures Apply(after4, op5) == after5
  {
    assert Owned(after4.rows, 12, 100, "w", 0);
    assert Succeed(after4.rows, 12, 0) == after5.rows;
  }

  lemma Effect6()
    ensures Apply(after5, op6) == after6
  {
    LatestIsNone(after5.rows, EventKey(7));
    assert Apply(after5, op6).rows == after6.rows;
  }

  lemma Effect7()
    ensures Apply(after6, op7) == after7 && WellFormed(after6, op7)
  {
    Leases7();
    hide Claimable, Lease;
    ClaimStep(after6, {20}, None, 101);
  }

  lemma Leases7()
    ensures forall q :: Claimable(after6.rows, q, 0, None) <==> q in {20}
    ensures Lease(after6.rows, {20}, 101, "w", 1, 0) == after7.rows
  {
  }

  lemma Effect8()
    ensures Apply(after7, op8) == after8
  {
    LatestIsOnly(after7.rows, CameraKey(1), 10);
    assert Apply(after7, op8).rows == after8.rows;
    assert after7.cameras - {1} == after8.cameras;
    assert Apply(after7, op8).items == after8.items;
  }

  lemma Effect9()
    ensures Apply(after8, op9) == after9
  {
    CreateStep(after8, 2, 11);
  }

  lemma Effect10()
    ensures Apply(after9, op10) == after10
  {
    Waits10();
    Queued10();
    hide Enqueue, CameraDependency;
  }

  lemma Waits10()
    ensures CameraDependency(after9, 2) == On(11)
  {
    LatestIs(after9.rows, CameraKey(2));
    assert IsOldest(after9.rows, CameraKey(2), 11);
  }

  lemma Queued10()
    ensures Enqueue(after9.rows, SyncEvents, Deliver(atCamera2), EventKey(7), 8, Some(11), 0, 21) == after10.rows
  {
    LatestIsOnly(after9.rows, EventKey(7), 20);
  }

  lemma Effect11()
    ensures Apply(after10, op11) == after11
  {
    LatestIsOnly(after10.rows, CameraKey(2), 11);
    Cancelled11();
    hide CancelWithDependents;
    assert after10.cameras - {2} == after11.cameras;
    assert Apply(after10, op11).items == after11.items;
  }

  lemma Cancelled11()
    ensures CancelWithDependents(after10.rows, 11, 0) == after11.rows
  {
  }

  lemma Effect12()
    ensures Apply(after11, op12) == after12
  {
    LatestIsOnly(after11.rows, EventKey(7), 21);
    assert Apply(after11, op12).rows == after12.rows;
  }

  lemma Effect13()
    ensures Apply(after12, op13) == after13 && WellFormed(after12, op13)
  {
    Leases13();
    hide Claimable, Lease;
    ClaimStep(after12, {13, 22}, None, 102);
  }

  lemma Leases13()
    ensures forall q :: Claimable(after12.rows, q, 0, None) <==> q in {13, 22}
    ensures Lease(after12.rows, {13, 22}, 102, "w", 1, 0) == after13.rows
  {
  }

  // ------------------------------------------------------------------------ the run

  // The operation that follows the first n.
  function Operation(n: nat): Op {
    if n == 0 then op1 else if n == 1 then op2 else if n == 2 then op3 else if n == 3 then op4
    else if n == 4 then op5 else if n == 5 then op6 else if n == 6 then op7 else if n == 7 then op8
    else if n == 8 then op9 else if n == 9 then op10 else if n == 10 then op11 else if n == 11 then op12 else op13
  }

  // The database after the first n operations, and the identifiers used by then.
  function DbAfter(n: nat): Db {
    if n == 0 then Empty.db else if n == 1 then after1 else if n == 2 then after2 else if n == 3 then after3
    else if n == 4 then after4 else if n == 5 then after5 else if n == 6 then after6 else if n == 7 then after7
    else if n == 8 then after8 else if n == 9 then after9 else if n == 10 then after10 else if n == 11 then after11
    else if n == 12 then after12 else after13
  }

  function RowsBy(n: nat): set<Id> {
    if n < 1 then {} else if n < 2 then {10} else if n < 6 then {10, 12} else if n < 8 then {10, 12, 20}
    else if n < 9 then {10, 12, 20, 13} else if n < 10 then {10, 12, 20, 13, 11}
    else if n < 12 then {10, 12, 20, 13, 11, 21} else {10, 12, 20, 13, 11, 21, 22}
  }

  function TokensBy(n: nat): set<Token> {
    if n < 3 then {} else if n < 7 then {100} else if n < 13 then {100, 101} else {100, 101, 102}
  }

  function CamerasBy(n: nat): set<Id> {
    if n < 1 then {} else if n < 2 then {1} else if n < 9 then {1, 3} else {1, 2, 3}
  }

  ghost predicate Effect(n: nat) {
    n < 13 && Apply(DbAfter(n), Operation(n)) == DbAfter(n + 1) && WellFormed(DbAfter(n), Operation(n))
  }

  lemma CreateEffects(n: nat)
    requires n < 3
    ensures Effect(n)
  {
    if n == 0 { Effect1(); } else if n == 1 { Effect2(); } else { Effect3(); }
    hide Apply, ClaimSet, Expire;
  }

  lemma DeliverEffects(n: nat)
    requires 3 <= n < 6
    ensures Effect(n)
  {
    if n == 3 { Effect4(); } else if n == 4 { Effect5(); } else { Effect6(); }
    hide Apply, ClaimSet, Expire;
  }

  lemma LeaseEffects(n: nat)
    requires 6 <= n < 8
    ensures Effect(n)
  {
    if n == 6 { Effect7(); } else { Effect8(); }
    hide Apply, ClaimSet, Expire;
  }

  lemma CancelEffects(n: nat)
    requires 8 <= n < 11
    ensures Effect(n)
  {
    if n == 8 { Effect9(); } else if n == 9 { Effect10(); } else { Effect11(); }
    hide Apply, ClaimSet, Expire;
  }

  lemma LastEffects(n: nat)
    requires 11 <= n < 13
    ensures Effect(n)
  {
    if n == 11 { Effect12(); } else { Effect13(); }
    hide Apply, ClaimSet, Expire;
  }

  lemma EveryEffect(n: nat)
    requires n < 13
    ensures Effect(n)
  {
    hide Effect;
    if n < 3 { CreateEffects(n); } else if n < 6 { DeliverEffects(n); } else if n < 8 { LeaseEffects(n); }
    else if n < 11 { CancelEffects(n); } else { LastEffects(n); }
  }

  lemma FirstUses()
    ensures Uses(after1, {10}, {}, {1})
    ensures Uses(after2, {10, 12}, {}, {1, 3})
    ensures Uses(after3, {10, 12}, {100}, {1, 3})
  {
  }

  lemma DeliverUses()
    ensures Uses(after4, {10, 12}, {100}, {1, 3})
    ensures Uses(after5, {10, 12}, {100}, {1, 3})
    ensures Uses(after6, {10, 12, 20}, {100}, {1, 3})
  {
  }

  lemma CameraUses()
    ensures Uses(after7, {10, 12, 20}, {100, 101}, {1, 3})
    ensures Uses(after8, {10, 12, 20, 13}, {100, 101}, {1, 3})
    ensures Uses(after9, {10, 12, 20, 13, 11}, {100, 101}, {1, 2, 3})
  {
  }

  lemma CancelUses()
    ensures Uses(after10, {10, 12, 20, 13, 11, 21}, {100, 101}, {1, 2, 3})
    ensures Uses(after11, {10, 12, 20, 13, 11, 21}, {100, 101}, {1, 2, 3})
  {
  }

  lemma LastUses()
    ensures Uses(after12, {10, 12, 20, 13, 11, 21, 22}, {100, 101}, {1, 2, 3})
    ensures Uses(after13, {10, 12, 20, 13, 11, 21, 22}, {100, 101, 102}, {1, 2, 3})
  {
  }

  lemma EveryUse(n: nat)
    requires 0 < n <= 13
    ensures Uses(DbAfter(n), RowsBy(n), TokensBy(n), CamerasBy(n))
  {
    FirstUses();
    DeliverUses();
    CameraUses();
    CancelUses();
    LastUses();
    hide Uses;
  }

  lemma EveryFresh(w: World, n: nat)
    requires n < 13 && w.log.ids <= RowsBy(n) && w.log.tokens <= TokensBy(n) && w.log.cameras <= CamerasBy(n)
    ensures Fresh(w, Operation(n))
    ensures RowsBy(n) <= RowsBy(n + 1) && TokensBy(n) <= TokensBy(n + 1) && CamerasBy(n) <= CamerasBy(n + 1)
  {
  }

  lemma Stage(w: World, n: nat)
    requires n < 13 && At(w, DbAfter(n), RowsBy(n), TokensBy(n), CamerasBy(n))
    ensures At(Next(w, Operation(n)), DbAfter(n + 1), RowsBy(n + 1), TokensBy(n + 1), CamerasBy(n + 1))
  {
    EveryEffect(n);
    EveryUse(n + 1);
    EveryFresh(w, n);
    hide Apply, WellFormed, Fresh, Uses, DbAfter, RowsBy, TokensBy, CamerasBy;
    Advance(w, Operation(n), DbAfter(n), DbAfter(n + 1), RowsBy(n), TokensBy(n), CamerasBy(n),
            RowsBy(n + 1), TokensBy(n + 1), CamerasBy(n + 1));
  }

  lemma {:induction false} Reached(n: nat) returns (w: World)
    requires n <= 13
    ensures At(w, DbAfter(n), RowsBy(n), TokensBy(n), CamerasBy(n))
  {
    if n == 0 {
      w := Empty;
      Start();
      hide Reachable;
    } else {
      w := Reached(n - 1);
      Stage(w, n - 1);
      w := Next(w, Operation(n - 1));
    }
  }

  lemma ReachedEnd() returns (w: World)
    ensures Reachable(w) && w.db == after13
  {
    hide Reachable, RowsBy, TokensBy, CamerasBy, after13;
    w := Reached(13);
  }

  /** The version order of an event key fails in this run, whose claims are those of a sync pass
      without a filter: rows 20 and 22 are both in flight. */
  lemma TwoRowsInFlight() returns (w: World)
    ensures Reachable(w) && !InOrder(w.db.rows, EventKey(7))
    ensures InFlight(w.db.rows, EventKey(7), 20) && InFlight(w.db.rows, EventKey(7), 22)
  {
    hide Reachable, InOrder, InFlight, after13;
    w := ReachedEnd();
    TwoInFlight13();
  }

  lemma TwoInFlight13()
    ensures InFlight(after13.rows, EventKey(7), 20) && InFlight(after13.rows, EventKey(7), 22)
    ensures !InOrder(after13.rows, EventKey(7))
  {
  }

  lemma Start()
    ensures Reachable(Empty)
  {
    assert Runnable(Empty, []) && Exec(Empty, []) == Empty;
  }
}
