/**
 The attempt count of a row is the number of its leases since it was created or
 came back from the dead letters, in every run; so a row is buried by its
 attempt limit exactly at the lease that reaches it.
 */
module SyncAttempts {
  import opened Prelude
  import opened CentralTables
  import opened SyncModel
  import opened SyncInvariant
  import opened SyncHistory
  import opened SyncRuns
  import opened SyncEffects

  // Counting starts anew: the row is new, or comes back from the dead letters.
  predicate Restarts(rows: Rows, rows': Rows, q: Id) {
    q !in rows || (rows[q].state == DeadLetter && IsIn(rows', q, Pending))
  }

  // The count after a transaction, by the leases it added to the record.
  ghost function TriesAfter(w: World, w': World, q: Id, n: int): int {
    (if Restarts(w.db.rows, w'.db.rows, q) then 0 else n) + |LeasesOf(w'.log, q)| - |LeasesOf(w.log, q)|
  }

  // How often row q was leased in a run since it was created or came back, counting on from n.
  ghost function Tries(w: World, ops: seq<Op>, q: Id, n: int): int
    decreases |ops|
  {
    if ops == [] then n else Tries(Next(w, ops[0]), ops[1..], q, TriesAfter(w, Next(w, ops[0]), q, n))
  }

  // ------------------------------------------------------------------ one transaction

  // A row that was never leased has no attempts; only a row in flight has a token.
  predicate CountOk(rows: Rows, q: Id) {
    q in rows ==> (rows[q].lastAttempt.None? ==> rows[q].attempts == 0)
                  && (rows[q].token.Some? ==> rows[q].state == Inflight)
  }

  // The row gains this token and one attempt, or neither.
  predicate RowCounts(rows: Rows, rows': Rows, q: Id, issued: Option<Token>) {
    q in rows' ==>
      var before := if Restarts(rows, rows', q) then 0 else rows[q].attempts;
      && CountOk(rows', q)
      && if rows'[q].token.Some? && (q in rows ==> rows'[q].token != rows[q].token)
         then rows'[q].token == issued && rows'[q].attempts == before + 1
         else rows'[q].attempts == before
  }

  lemma QueuedCounts(rows: Rows, rows': Rows, endpoint: Endpoint, payload: Payload, key: Key, maxAttempts: nat,
                     dep: Option<Id>, now: Time, newId: Id, id: Id, q: Id)
    requires Queued(rows, rows', endpoint, payload, key, maxAttempts, dep, now, newId, id) && CountOk(rows, q)
    requires newId !in rows
    ensures RowCounts(rows, rows', q, None)
  {
    if NewestUnsent(rows, key) { assert id in rows; }
    hide IsLatest, NewestUnsent;
  }

  lemma ProducerCounts(db: Db, op: Op, q: Id)
    requires Distinct(db.rows) && CountOk(db.rows, q)
    requires op.OpCreateCamera? || op.OpUpdateCamera? || op.OpDeleteCamera? || op.OpAddItem? || op.OpEnqueueRevocation?
    requires op.newId !in db.rows && (op.OpCreateCamera? ==> op.camera !in db.cameras)
    ensures RowCounts(db.rows, Apply(db, op).rows, q, None)
  {
    hide Queued, Distinct, RowCounts, CountOk;
    SameCounts(db.rows, q);
    var db' := Apply(db, op);
    match op {
      case OpCreateCamera(c, config, limit, id, m, now) =>
        CreateTakesEffect(db, c, config, limit, id, m, now);
        if i :| CreateEffect(db, db', c, config, m, now, id, i) {
          QueuedCounts(db.rows, db'.rows, Cameras, CameraPost(c, db'.rows[i].payload.body), CameraKey(c), m, None, now,
                       id, i, q);
        }
      case OpUpdateCamera(c, changes, id, m, now) =>
        UpdateTakesEffect(db, c, changes, id, m, now);
        if i :| UpdateEffect(db, db', c, changes, m, now, id, i) {
          QueuedCounts(db.rows, db'.rows, db'.rows[i].endpoint, db'.rows[i].payload, CameraKey(c), m, None, now, id, i,
                       q);
        }
      case OpDeleteCamera(c, id, m, now) =>
        DeleteTakesEffect(db, c, id, m, now);
        if c in db.cameras { DeletionCounts(db, db', c, m, now, id, q); }
      case OpAddItem(item, id, m, now) =>
        AddTakesEffect(db, item, id, m, now);
        if i, dep :| AddEffect(db, db', item, m, now, id, i, ItemKey(item), ItemEndpoint(item), dep) {
          QueuedCounts(db.rows, db'.rows, ItemEndpoint(item), Deliver(item), ItemKey(item), m, dep, now, id, i, q);
        }
      case OpEnqueueRevocation(g, id, m, now) =>
        EnqueueQueues(db.rows, Logout, SessionRevoke(g), RevokeKey, m, None, now, id);
        QueuedCounts(db.rows, db'.rows, Logout, SessionRevoke(g), RevokeKey, m, None, now, id,
                     EnqueuedId(db.rows, RevokeKey, id), q);
    }
  }

  lemma DeletionCounts(db: Db, db': Db, camera: Id, maxAttempts: nat, now: Time, newId: Id, q: Id)
    requires DeleteEffect(db, db', camera, maxAttempts, now, newId) && newId !in db.rows && CountOk(db.rows, q)
    ensures RowCounts(db.rows, db'.rows, q, None)
  {
    hide Queued, IsLatest, RowCounts, CountOk;
    if Withdraws(db, camera) {
      var l :| IsLatest(db.rows, CameraKey(camera), l) && WithdrawnAt(db.rows, db'.rows, l, now);
      WithdrawalCounts(db.rows, db'.rows, l, now, q);
    } else {
      var id :| Queued(db.rows, db'.rows, CameraAt(camera), CameraDelete(camera), CameraKey(camera), maxAttempts, None,
                       now, newId, id);
      QueuedCounts(db.rows, db'.rows, CameraAt(camera), CameraDelete(camera), CameraKey(camera), maxAttempts, None, now,
                   newId, id, q);
    }
  }

  lemma WithdrawalCounts(rows: Rows, rows': Rows, l: Id, now: Time, q: Id)
    requires WithdrawnAt(rows, rows', l, now) && CountOk(rows, q)
    ensures RowCounts(rows, rows', q, None)
  {
  }

  lemma SameCounts(rows: Rows, q: Id)
    requires CountOk(rows, q)
    ensures RowCounts(rows, rows, q, None)
  {
  }

  lemma BeginCounts(db: Db, generation: nat, newId: Id, token: Token, lease: Time, maxAttempts: nat, now: Time, q: Id)
    requires Distinct(db.rows) && newId !in db.rows && CountOk(db.rows, q)
    ensures var rows' := BeginRevocation(db, generation, newId, token, lease, maxAttempts, now).rows;
      RowCounts(db.rows, rows', q, None) || RowCounts(db.rows, rows', q, Some(token))
  {
    hide Distinct, BeginRevocation, Queued, LeasedNow, RowCounts, CountOk;
    BeginTakesEffect(db, generation, newId, token, lease, maxAttempts, now);
    SameCounts(db.rows, q);
    var db' := BeginRevocation(db, generation, newId, token, lease, maxAttempts, now);
    if id, queued :| BeginEffect(db, db', generation, token, lease, maxAttempts, now, newId, id, queued) {
      QueuedCounts(db.rows, queued, Logout, SessionRevoke(generation + 1), RevokeKey, maxAttempts, None, now, newId, id,
                   q);
      QueuedIsFree(db.rows, queued, Logout, SessionRevoke(generation + 1), RevokeKey, maxAttempts, None, now, newId,
                   id);
      LeasedAfterQueued(db.rows, queued, db'.rows, id, token, lease, now, q);
    }
  }

  lemma QueuedIsFree(rows: Rows, rows': Rows, endpoint: Endpoint, payload: Payload, key: Key, maxAttempts: nat,
                     dep: Option<Id>, now: Time, newId: Id, id: Id)
    requires Queued(rows, rows', endpoint, payload, key, maxAttempts, dep, now, newId, id)
    ensures id in rows' && rows'[id].state == Pending && OthersKept(rows, rows', id)
    ensures id in rows ==> rows[id].state == Pending || id == newId
  {
    hide IsLatest, NewestUnsent;
  }

  lemma LeasedAfterQueued(rows: Rows, queued: Rows, rows': Rows, id: Id, token: Token, lease: Time, now: Time, q: Id)
    requires OthersKept(rows, queued, id) && OthersKept(queued, rows', id) && RowCounts(rows, queued, q, None)
    requires id in queued && queued[id].state == Pending && (id in rows ==> rows[id].state == Pending)
    requires LeasedNow(queued[id], rows'[id], token, "auth-logout", lease, now) && CountOk(rows, q)
    ensures RowCounts(rows, rows', q, Some(token)) || RowCounts(rows, rows', q, None)
  {
  }

  lemma ClaimCounts(rows: Rows, rows': Rows, chosen: set<Id>, lessee: string, limit: nat, filter: Option<Key>,
                    token: Token, lease: Time, now: Time, q: Id)
    requires ClaimEffect(rows, rows', chosen, lessee, token, lease, now) && CountOk(rows, q)
    requires FirstClaims(rows, chosen, limit, filter, now)
    requires q in rows ==> rows[q].token != Some(token)
    ensures RowCounts(rows, rows', q, Some(token))
  {
    if q in chosen { assert MayClaim(rows, q, now, filter); }
  }

  lemma SettleCounts(db: Db, op: Op, q: Id)
    requires IsSettle(op) && CountOk(db.rows, q)
    ensures RowCounts(db.rows, Apply(db, op).rows, q, None)
  {
    hide Succeeds, FailEffect, IdentityFree, RowCounts, CountOk;
    SameCounts(db.rows, q);
    var rows' := Apply(db, op).rows;
    match op {
      case OpComplete(id, token, lessee, now) => CompleteTakesEffect(db, id, token, lessee, now);
      case OpCompleteCamera(id, token, lessee, l, s, now) =>
        CompleteCameraTakesEffect(db, id, token, lessee, l, s, now);
      case OpCompleteRevocation(id, token, lessee, g, now) =>
        CompleteRevocationTakesEffect(db, id, token, lessee, g, now);
      case OpFail(id, token, lessee, permanent, now) =>
        FailTakesEffect(db.rows, id, token, lessee, permanent, now);
        if FailEffect(db.rows, rows', id, permanent, now) { FailureCounts(db.rows, rows', id, permanent, now, q); }
    }
    if Succeeds(db.rows, rows', op.id, op.now) { SuccessCounts(db.rows, rows', op.id, op.now, q); }
  }

  lemma SuccessCounts(rows: Rows, rows': Rows, id: Id, now: Time, q: Id)
    requires Succeeds(rows, rows', id, now) && CountOk(rows, q)
    ensures RowCounts(rows, rows', q, None)
  {
  }

  lemma FailureCounts(rows: Rows, rows': Rows, id: Id, permanent: bool, now: Time, q: Id)
    requires FailEffect(rows, rows', id, permanent, now) && CountOk(rows, q)
    ensures RowCounts(rows, rows', q, None)
  {
    hide DelayOf;
  }

  lemma RemainingCounts(db: Db, op: Op, q: Id)
    requires op.OpRetryDead? || op.OpDiscardDead? || op.OpPurge? || op.OpSaveSession? || op.OpWriteSession?
    requires WellFormed(db, op) && CountOk(db.rows, q)
    ensures RowCounts(db.rows, Apply(db, op).rows, q, None)
  {
    hide CandidateList, PurgeAll, OldRows, PurgeEffect, OthersKept;
    match op {
      case OpRetryDead(id, now) => DeadLetterTakesEffect(db.rows, id, now);
      case OpDiscardDead(id, now) => DeadLetterTakesEffect(db.rows, id, now);
      case OpSaveSession(now) => SaveTakesEffect(db, now);
      case OpWriteSession(_) => SameCounts(db.rows, q);
      case OpPurge(candidates, closedBefore, deadBefore, now) =>
        RetentionTakesEffect(db.rows, candidates, closedBefore, deadBefore, now);
        PurgeCounts(db.rows, PurgeAll(db.rows, candidates, now), OldRows(db.rows, closedBefore, deadBefore), now, q);
    }
  }

  lemma PurgeCounts(rows: Rows, rows': Rows, gone: set<Id>, now: Time, q: Id)
    requires PurgeEffect(rows, rows', gone, now) && CountOk(rows, q)
    ensures RowCounts(rows, rows', q, None)
  {
    hide Orphaned, PointsAtLost;
    if q in rows' { assert Survives(rows, rows'[q], gone, q, now); }
  }

  // The token a transaction may hand out is new.
  function Issued(op: Op): Option<Token> {
    if op.OpClaim? || op.OpBeginRevocation? then Some(op.token) else None
  }

  lemma StepIsFresh(w: World, op: Op, q: Id)
    requires Inv(w) && Enabled(w, op)
    ensures Distinct(w.db.rows) && WellFormed(w.db, op)
    ensures IsProducer(op) && !op.OpSaveSession? && !op.OpWriteSession? ==> op.newId !in w.db.rows
    ensures op.OpCreateCamera? ==> op.camera !in w.db.cameras
    ensures Issued(op).Some? ==> Issued(op).value !in w.log.tokens
  {
  }

  lemma BeginApplies(db: Db, op: Op)
    requires op.OpBeginRevocation?
    ensures Apply(db, op) == BeginRevocation(db, op.expected, op.newId, op.token, op.lease, op.maxAttempts, op.now)
  {
  }

  lemma ClaimApplies(db: Db, op: Op)
    requires op.OpClaim?
    ensures Apply(db, op).rows
         == Lease(Expire(db.rows, op.now), op.chosen, op.token, op.lessee, op.now + op.lease, op.now)
  {
  }

  lemma ClaimStepCounts(w: World, op: Op, q: Id)
    requires Fenced(w.db.rows, w.log) && WellFormed(w.db, op) && CountOk(w.db.rows, q)
    requires op.OpClaim? && op.token !in w.log.tokens
    ensures RowCounts(w.db.rows, Apply(w.db, op).rows, q, Some(op.token))
  {
    StoredToken(w, q);
    ClaimApplies(w.db, op);
    hide ClaimSet, ClaimEffect, FirstClaims, Fenced, RowCounts, CountOk, Lease, Expire, Apply, LeasesOf;
    ClaimTakesEffect(w.db.rows, op.chosen, op.lessee, op.limit, op.filter, op.token, op.lease, op.now);
    ClaimCounts(w.db.rows, Apply(w.db, op).rows, op.chosen, op.lessee, op.limit, op.filter, op.token, op.lease, op.now,
                q);
  }

  // A token in the table is in the record of its row.
  lemma StoredToken(w: World, q: Id)
    requires Fenced(w.db.rows, w.log)
    ensures q in w.db.rows && w.db.rows[q].token.Some? ==>
      w.db.rows[q].token.value in w.log.tokens && LeasesOf(w.log, q) != []
      && LeasesOf(w.log, q)[|LeasesOf(w.log, q)| - 1] == w.db.rows[q].token.value
    ensures LeasesOf(w.log, q) != [] ==> LeasesOf(w.log, q)[|LeasesOf(w.log, q)| - 1] in w.log.tokens
  {
    if q in w.db.rows { assert LastLease(w.log, q, w.db.rows[q].token); }
    if LeasesOf(w.log, q) != [] { assert LeasesOf(w.log, q)[|LeasesOf(w.log, q)| - 1] in LeasesOf(w.log, q); }
  }

  lemma StepCounts(w: World, op: Op, q: Id)
    requires Inv(w) && Enabled(w, op) && CountOk(w.db.rows, q)
    ensures var rows' := Apply(w.db, op).rows;
      RowCounts(w.db.rows, rows', q, None) || RowCounts(w.db.rows, rows', q, Issued(op))
  {
    StepIsFresh(w, op, q);
    hide RowCounts, CountOk, Apply, Shape, CamerasOrdered, Gates, Known, Ever, Frozen, Fenced, SucceededOnce;
    if op.OpClaim? {
      ClaimStepCounts(w, op, q);
    } else if op.OpBeginRevocation? {
      BeginCounts(w.db, op.expected, op.newId, op.token, op.lease, op.maxAttempts, op.now, q);
      BeginApplies(w.db, op);
    } else if IsSettle(op) {
      SettleCounts(w.db, op, q);
    } else if op.OpRetryDead? || op.OpDiscardDead? || op.OpPurge? || op.OpSaveSession? || op.OpWriteSession? {
      RemainingCounts(w.db, op, q);
    } else {
      ProducerCounts(w.db, op, q);
    }
  }

  // ------------------------------------------------------------------------ every run

  // The record of a row grows by one exactly when the row gains a token.
  lemma RecordGrows(log: Log, before: Rows, rows: Rows, cameras: map<Id, Camera>, q: Id)
    ensures LeasesOf(Observe(log, before, rows, cameras), q)
         == if q in rows then NextLeases(log, q, rows[q]) else LeasesOf(log, q)
  {
    hide NextLeases;
  }

  lemma TokenRecorded(w: World, rows': Rows, q: Id, issued: Option<Token>)
    requires Fenced(w.db.rows, w.log) && q in rows' && RowCounts(w.db.rows, rows', q, issued)
    requires issued.Some? ==> issued.value !in w.log.tokens
    ensures |NextLeases(w.log, q, rows'[q])| - |LeasesOf(w.log, q)|
         == if rows'[q].token.Some? && (q in w.db.rows ==> rows'[q].token != w.db.rows[q].token) then 1 else 0
  {
    StoredToken(w, q);
    hide Fenced;
  }

  lemma StepTries(w: World, op: Op, q: Id, n: int)
    requires Inv(w) && Enabled(w, op) && CountOk(w.db.rows, q)
    requires q in w.db.rows ==> w.db.rows[q].attempts == n
    ensures CountOk(Next(w, op).db.rows, q)
    ensures q in Next(w, op).db.rows ==> Next(w, op).db.rows[q].attempts == TriesAfter(w, Next(w, op), q, n)
  {
    StepCounts(w, op, q);
    StepIsFresh(w, op, q);
    NextIs(w, op);
    InvFenced(w);
    hide Inv, Apply, Next, Observe, Fenced, RowCounts, CountOk, TriesAfter, LeasesOf, NextLeases;
    var w' := Next(w, op);
    RecordGrows(w.log, w.db.rows, w'.db.rows, w'.db.cameras, q);
    if RowCounts(w.db.rows, w'.db.rows, q, None) {
      CountedTries(w, w', q, n, None);
    } else {
      CountedTries(w, w', q, n, Issued(op));
    }
  }

  lemma InvFenced(w: World)
    requires Inv(w)
    ensures Fenced(w.db.rows, w.log)
  {
  }

  lemma CountedTries(w: World, w': World, q: Id, n: int, issued: Option<Token>)
    requires Fenced(w.db.rows, w.log) && RowCounts(w.db.rows, w'.db.rows, q, issued) && CountOk(w.db.rows, q)
    requires issued.Some? ==> issued.value !in w.log.tokens
    requires LeasesOf(w'.log, q) == if q in w'.db.rows then NextLeases(w.log, q, w'.db.rows[q]) else LeasesOf(w.log, q)
    requires q in w.db.rows ==> w.db.rows[q].attempts == n
    ensures CountOk(w'.db.rows, q)
    ensures q in w'.db.rows ==> w'.db.rows[q].attempts == TriesAfter(w, w', q, n)
  {
    if q in w'.db.rows { TokenRecorded(w, w'.db.rows, q, issued); }
    hide Fenced, NextLeases, LeasesOf;
  }

  lemma NextIs(w: World, op: Op)
    ensures Next(w, op).db == Apply(w.db, op)
    ensures Next(w, op).log == Observe(w.log, w.db.rows, Next(w, op).db.rows, Next(w, op).db.cameras)
  {
  }

  lemma {:induction false} RunTries(w: World, ops: seq<Op>, q: Id, n: int)
    requires Inv(w) && Runnable(w, ops) && CountOk(w.db.rows, q)
    requires q in w.db.rows ==> w.db.rows[q].attempts == n
    ensures var rows := Exec(w, ops).db.rows;
      CountOk(rows, q) && (q in rows ==> rows[q].attempts == Tries(w, ops, q, n))
    decreases |ops|
  {
    hide Inv, Enabled, Next, CountOk, TriesAfter;
    if ops != [] {
      StepTries(w, ops[0], q, n);
      StepKeepsInv(w, ops[0]);
      RunTries(Next(w, ops[0]), ops[1..], q, TriesAfter(w, Next(w, ops[0]), q, n));
    }
  }

  /** In every run, a row's attempt count is the number of leases on record for it since it was
      created or last came back from the dead letters. */
  lemma AttemptsAreLeases(ops: seq<Op>, q: Id)
    requires Runnable(Empty, ops) && q in Exec(Empty, ops).db.rows
    ensures Exec(Empty, ops).db.rows[q].attempts == Tries(Empty, ops, q, 0)
  {
    EmptyInv();
    RunTries(Empty, ops, q, 0);
  }

  /** So a transient refusal buries a row exactly from its maxAttempts-th such lease on, and
      otherwise leaves it waiting for a retry. */
  lemma RefusalBuriesIff(ops: seq<Op>, id: Id, token: Token, lessee: string, now: Time)
    requires Runnable(Empty, ops) && HeldBy(Exec(Empty, ops).db.rows, id, token, lessee, now)
    ensures var rows := Exec(Empty, ops).db.rows;
      var rows' := Apply(Exec(Empty, ops).db, OpFail(id, token, lessee, false, now)).rows;
      && id in rows'
      && (IsIn(rows', id, DeadLetter) <==> Tries(Empty, ops, id, 0) >= rows[id].maxAttempts)
      && (IsIn(rows', id, RetryWait) <==> Tries(Empty, ops, id, 0) < rows[id].maxAttempts)
  {
    hide Runnable, Exec, Tries, Apply;
    AttemptsAreLeases(ops, id);
    RefusedState(Exec(Empty, ops).db, id, token, lessee, now);
  }

  lemma RefusedState(db: Db, id: Id, token: Token, lessee: string, now: Time)
    requires HeldBy(db.rows, id, token, lessee, now)
    ensures var rows' := Apply(db, OpFail(id, token, lessee, false, now)).rows;
      && id in rows'
      && (IsIn(rows', id, DeadLetter) <==> db.rows[id].attempts >= db.rows[id].maxAttempts)
      && (IsIn(rows', id, RetryWait) <==> db.rows[id].attempts < db.rows[id].maxAttempts)
  {
    FailTakesEffect(db.rows, id, token, lessee, false, now);
    hide Fail;
  }
}
