/**
 A pass of the sync service among other transactions: between its claim and each
 of its settlements anything may happen to the outbox, other passes included.
 */
module SyncInterleaved {
  import opened Prelude
  import CentralTables
  import opened SyncModel
  import opened SyncInvariant
  import opened SyncHistory
  import opened SyncRuns
  import opened SyncFlush

  type Id = CentralTables.Id

  // What a pass holds throughout: the session it read, its lease and the queue's attempt limit.
  datatype Flush = Flush(session: Session, token: Token, lessee: string, queueMax: nat)

  // Transactions of others, then the settlement of the pass's next item.
  datatype Turn = Turn(others: seq<Op>, item: Item)

  function ItemVerdict(f: Flush, i: Item): Verdict { VerdictOf(f.session, i.payload, i.reply) }

  function SettleOp(f: Flush, i: Item): Op { SettlementOf(ItemVerdict(f, i), i.id, f.token, f.lessee, i.at) }

  // The run of transactions that the turns make.
  function Steps(f: Flush, turns: seq<Turn>): seq<Op> {
    if turns == [] then [] else turns[0].others + ([SettleOp(f, turns[0].item)] + Steps(f, turns[1..]))
  }

  predicate Holding(db: Db, f: Flush, i: Item) { Owned(db.rows, i.id, f.token, f.lessee, i.at) }

  // The state the settlement leaves the item's row in; none if the lease is gone.
  ghost function Outcome(db: Db, f: Flush, i: Item): Option<State> {
    var rows := Apply(db, SettleOp(f, i)).rows;
    if Holding(db, f, i) && i.id in rows then Some(rows[i.id].state) else None
  }

  // The world the first item is settled in, and the one after that.
  ghost function Before(w: World, turns: seq<Turn>): World
    requires turns != []
  {
    Exec(w, turns[0].others)
  }

  ghost function After(w: World, f: Flush, turns: seq<Turn>): World
    requires turns != []
  {
    Next(Before(w, turns), SettleOp(f, turns[0].item))
  }

  // The counters after the turns, and the outcome of each item's settlement.
  ghost function Amid(w: World, t: Tally, f: Flush, turns: seq<Turn>): (Tally, seq<Option<State>>)
    decreases |turns|
  {
    if turns == [] then (t, [])
    else
      var i := turns[0].item;
      var db := Before(w, turns).db;
      var t1 := Counted(t, ItemVerdict(f, i), Holding(db, f, i), i.attempts, f.queueMax);
      var (t', outcomes) := Amid(After(w, f, turns), t1, f, turns[1..]);
      (t', [Outcome(db, f, i)] + outcomes)
  }

  // --------------------------------------------------- what a lease keeps while it lasts

  // If the row carries this token after a change it did before, with the same attempts, limit and payload.
  predicate HeldKept(rows: Rows, rows': Rows, q: Id, t: Token) {
    q in rows' && rows'[q].token == Some(t) ==>
      && q in rows && rows[q].token == Some(t) && rows'[q].payload == rows[q].payload
      && rows'[q].attempts == rows[q].attempts && rows'[q].maxAttempts == rows[q].maxAttempts
  }

  predicate TokenInflight(rows: Rows, q: Id) { q in rows && rows[q].token.Some? ==> rows[q].state == Inflight }

  lemma TokensAreInflight(rows: Rows, q: Id)
    requires Linked(rows)
    ensures TokenInflight(rows, q)
  {
    assert q in rows ==> RowOk(rows, q);
  }

  lemma EnqueueHeld(rows: Rows, endpoint: Endpoint, payload: Payload, key: Key, maxAttempts: nat, dep: Option<Id>,
                    now: Time, newId: Id, q: Id, t: Token)
    requires TokenInflight(rows, q)
    ensures HeldKept(rows, Enqueue(rows, endpoint, payload, key, maxAttempts, dep, now, newId), q, t)
  {
    hide HeldKept, Latest, Coalesces, Coalesced, NewRow, TokenInflight;
    var latest := Latest(rows, key);
    if latest.Some? && latest.value in rows {
      var version := rows[latest.value].version + 1;
      RewrittenHeld(rows, latest.value, endpoint, payload, dep, now, q, t);
      AddedHeld(rows, endpoint, payload, key, version, latest, dep, maxAttempts, now, newId, q, t);
    } else {
      AddedHeld(rows, endpoint, payload, key, 1, None, dep, maxAttempts, now, newId, q, t);
    }
  }

  lemma RewrittenHeld(rows: Rows, l: Id, endpoint: Endpoint, payload: Payload, dep: Option<Id>, now: Time, q: Id,
                      t: Token)
    requires l in rows && TokenInflight(rows, q)
    ensures Coalesces(rows[l]) ==> HeldKept(rows, rows[l := Coalesced(rows[l], endpoint, payload, dep, now)], q, t)
  {
  }

  lemma AddedHeld(rows: Rows, endpoint: Endpoint, payload: Payload, key: Key, version: nat, pred: Option<Id>,
                  dep: Option<Id>, maxAttempts: nat, now: Time, newId: Id, q: Id, t: Token)
    ensures var r := NewRow(endpoint, payload, key, version, pred, dep, maxAttempts, now);
      HeldKept(rows, rows[newId := r], q, t)
  {
  }

  lemma {:induction false} PurgeHeld(rows: Rows, candidates: seq<(Id, State)>, now: Time, q: Id, t: Token)
    ensures HeldKept(rows, PurgeAll(rows, candidates, now), q, t)
  {
    hide Descendants;
    if candidates != [] { PurgeHeld(rows, candidates[..|candidates| - 1], now, q, t); }
  }

  lemma ProducerHeld(w: World, op: Op, q: Id, t: Token)
    requires TokenInflight(w.db.rows, q) && Enabled(w, op) && IsProducer(op) && t in w.log.tokens
    ensures HeldKept(w.db.rows, Apply(w.db, op).rows, q, t)
  {
    hide Enqueue, Latest, Oldest, UpdatePayload;
    var rows := w.db.rows;
    match op {
      case OpCreateCamera(c, config, limit, id, m, now) =>
        EnqueueHeld(rows, Cameras, CameraPost(c, config - {IsActive}), CameraKey(c), m, None, now, id, q, t);
      case OpUpdateCamera(c, changes, id, m, now) =>
        if c in w.db.cameras {
          var (endpoint, payload) := UpdatePayload(w.db, c, changes);
          EnqueueHeld(rows, endpoint, payload, CameraKey(c), m, None, now, id, q, t);
        }
      case OpDeleteCamera(c, id, m, now) =>
        EnqueueHeld(rows, CameraAt(c), CameraDelete(c), CameraKey(c), m, None, now, id, q, t);
      case OpAddItem(item, id, m, now) =>
        var d := CameraDependency(w.db, item.camera);
        EnqueueHeld(rows, ItemEndpoint(item), Deliver(item), ItemKey(item), m, if d.On? then Some(d.id) else None, now,
                    id, q, t);
      case OpSaveSession(now) =>
      case OpEnqueueRevocation(g, id, m, now) =>
        EnqueueHeld(rows, Logout, SessionRevoke(g), RevokeKey, m, None, now, id, q, t);
      case OpBeginRevocation(g, id, token, lease, m, now) =>
        EnqueueHeld(rows, Logout, SessionRevoke(g + 1), RevokeKey, m, None, now, id, q, t);
      case OpWriteSession(_) =>
    }
  }

  lemma ClaimHeld(rows: Rows, chosen: set<Id>, token: Token, owner: string, expires: Time, now: Time, q: Id, t: Token)
    requires t != token
    ensures HeldKept(rows, Lease(Expire(rows, now), chosen, token, owner, expires, now), q, t)
  {
  }

  lemma SettleHeld(db: Db, op: Op, q: Id, t: Token)
    requires IsSettle(op)
    ensures HeldKept(db.rows, Apply(db, op).rows, q, t)
  {
  }

  lemma DeadLetterHeld(db: Db, op: Op, q: Id, t: Token)
    requires (op.OpRetryDead? || op.OpDiscardDead?) && TokenInflight(db.rows, q)
    ensures HeldKept(db.rows, Apply(db, op).rows, q, t)
  {
  }

  // As long as a row carries an issued token, no transaction changes what was leased.
  lemma TokenStep(w: World, op: Op, q: Id, t: Token)
    requires Inv(w) && Enabled(w, op) && t in w.log.tokens
    ensures HeldKept(w.db.rows, Next(w, op).db.rows, q, t)
  {
    hide Next, Gates, Remembered, CamerasOrdered, Linked, PurgeAll, Lease, Expire, HeldKept, TokenInflight;
    TokensAreInflight(w.db.rows, q);
    NextApplies(w, op);
    if IsProducer(op) {
      hide Apply;
      ProducerHeld(w, op, q, t);
    } else if IsSettle(op) {
      hide Apply;
      SettleHeld(w.db, op, q, t);
    } else if op.OpClaim? {
      ClaimHeld(w.db.rows, op.chosen, op.token, op.lessee, op.now + op.lease, op.now, q, t);
    } else if op.OpPurge? {
      PurgeHeld(w.db.rows, op.candidates, op.now, q, t);
    } else {
      hide Apply;
      DeadLetterHeld(w.db, op, q, t);
    }
  }

  lemma NextApplies(w: World, op: Op)
    ensures Next(w, op).db == Apply(w.db, op)
    ensures Enabled(w, op) && op.OpClaim? ==> op.token !in w.log.tokens
  {
  }

  lemma TokensStay(w: World, op: Op)
    ensures w.log.tokens <= Next(w, op).log.tokens
  {
  }

  // The central service gives every camera its local identity.
  predicate Canonical(op: Op) { op.OpCompleteCamera? ==> op.localId == op.serverId }

  predicate AllCanonical(ops: seq<Op>) { forall i :: 0 <= i < |ops| ==> Canonical(ops[i]) }

  lemma StepKeepsCanonical(db: Db, op: Op)
    requires CanonicalCameras(db.cameras) && Canonical(op)
    ensures CanonicalCameras(Apply(db, op).cameras)
  {
    hide Enqueue, PurgeAll, Latest, Oldest, UpdatePayload;
  }

  // What every transaction of others leaves of the pass's claim.
  ghost predicate Ready(claim: Rows, w: World, token: Token) {
    && Inv(w) && token in w.log.tokens && CanonicalCameras(w.db.cameras)
    && forall q {:trigger HeldKept(claim, w.db.rows, q, token)} :: HeldKept(claim, w.db.rows, q, token)
  }

  lemma StepKeepsReady(claim: Rows, w: World, token: Token, op: Op)
    requires Ready(claim, w, token) && Enabled(w, op) && Canonical(op)
    ensures Ready(claim, Next(w, op), token)
  {
    StepKeepsInv(w, op);
    TokensStay(w, op);
    StepKeepsCanonical(w.db, op);
    forall q ensures HeldKept(claim, Next(w, op).db.rows, q, token) {
      assert HeldKept(claim, w.db.rows, q, token);
      TokenStep(w, op, q, token);
    }
    assert Next(w, op).db == Apply(w.db, op);
    hide Inv, Enabled, Next, Apply, CanonicalCameras;
  }

  lemma {:induction false} RunKeepsReady(claim: Rows, w: World, token: Token, ops: seq<Op>)
    requires Ready(claim, w, token) && Runnable(w, ops) && AllCanonical(ops)
    ensures Ready(claim, Exec(w, ops), token)
    decreases |ops|
  {
    hide Ready, Enabled, Next;
    if ops != [] {
      StepKeepsReady(claim, w, token, ops[0]);
      RunKeepsReady(claim, Next(w, ops[0]), token, ops[1..]);
    }
  }

  // ---------------------------------------------------------------------- accounting

  function HowMany(outcomes: seq<Option<State>>, o: Option<State>): nat {
    if outcomes == [] then 0 else (if outcomes[0] == o then 1 else 0) + HowMany(outcomes[1..], o)
  }

  // The item was claimed as it stands in these rows.
  predicate FromClaim(claim: Rows, i: Item) { i.id in claim && claim[i.id].attempts == i.attempts }

  // By how much the dead letters made exceed those counted: transient refusals of rows
  // whose own attempt limit and the queue's disagree.
  function OutcomeExcess(claim: Rows, f: Flush, i: Item, o: Option<State>): int {
    if o.Some? && ItemVerdict(f, i) == External(false) && i.id in claim then
      (if i.attempts >= claim[i.id].maxAttempts then 1 else 0) - (if i.attempts >= f.queueMax then 1 else 0)
    else 0
  }

  function TurnsExcess(claim: Rows, f: Flush, turns: seq<Turn>, outcomes: seq<Option<State>>): int
    requires |outcomes| == |turns|
  {
    if turns == [] then 0
    else OutcomeExcess(claim, f, turns[0].item, outcomes[0]) + TurnsExcess(claim, f, turns[1..], outcomes[1..])
  }

  // The counters go from t to t' by these outcomes.
  predicate Tallies(t: Tally, t': Tally, outcomes: seq<Option<State>>, excess: int) {
    && t'.synced == t.synced + HowMany(outcomes, Some(Succeeded))
    && t'.dead + excess == t.dead + HowMany(outcomes, Some(DeadLetter))
    && t.failed + HowMany(outcomes, Some(RetryWait)) <= t'.failed
    && t'.failed <= t.failed + HowMany(outcomes, Some(RetryWait)) + HowMany(outcomes, Some(DeadLetter))
    && |outcomes| == HowMany(outcomes, Some(Succeeded)) + HowMany(outcomes, Some(DeadLetter))
                   + HowMany(outcomes, Some(RetryWait)) + HowMany(outcomes, None)
  }

  // Whatever happened since the claim, a settlement moves the row by what the claim recorded.
  lemma OutcomeIs(claim: Rows, w: World, f: Flush, i: Item)
    requires Ready(claim, w, f.token) && FromClaim(claim, i)
    ensures Outcome(w.db, f, i) ==
      if Holding(w.db, f,
                 i) then Some(StateAfter(ItemVerdict(f, i), true, i.attempts, claim[i.id].maxAttempts)) else None
  {
    if Holding(w.db, f, i) {
      assert HeldKept(claim, w.db.rows, i.id, f.token);
      hide Inv, VerdictOf;
      SettlesOneRow(w.db, f.session, i, f.token, f.lessee);
      hide Apply, StateAfter;
    }
  }

  lemma OneMoreTallied(claim: Rows, t: Tally, t': Tally, f: Flush, i: Item, held: bool, outcome: Option<State>,
                       rest: seq<Option<State>>, excess: int)
    requires FromClaim(claim, i)
    requires outcome ==
      if held then Some(StateAfter(ItemVerdict(f, i), true, i.attempts, claim[i.id].maxAttempts)) else None
    requires Tallies(Counted(t, ItemVerdict(f, i), held, i.attempts, f.queueMax), t', rest, excess)
    ensures Tallies(t, t', [outcome] + rest, OutcomeExcess(claim, f, i, outcome) + excess)
  {
    hide VerdictOf;
    assert ([outcome] + rest)[1..] == rest;
  }

  lemma TurnSplits(w: World, f: Flush, turns: seq<Turn>)
    requires turns != [] && Runnable(w, Steps(f, turns))
    ensures Runnable(w, turns[0].others) && Enabled(Before(w, turns), SettleOp(f, turns[0].item))
    ensures Runnable(After(w, f, turns), Steps(f, turns[1..]))
    ensures Exec(w, Steps(f, turns)) == Exec(After(w, f, turns), Steps(f, turns[1..]))
  {
    var op, rest := SettleOp(f, turns[0].item), Steps(f, turns[1..]);
    assert Steps(f, turns) == turns[0].others + ([op] + rest);
    hide Next, SettleOp, Steps, Runnable, Exec, Enabled;
    ExecSplit(w, turns[0].others, [op] + rest);
    RunFirst(Before(w, turns), op, rest);
  }

  lemma TurnKeepsReady(claim: Rows, w: World, f: Flush, turns: seq<Turn>)
    requires turns != [] && Ready(claim, w, f.token) && Runnable(w, Steps(f, turns)) && AllCanonical(turns[0].others)
    ensures Ready(claim, Before(w, turns), f.token) && Ready(claim, After(w, f, turns), f.token)
  {
    hide Ready, Next, SettleOp, Steps, Runnable, Exec, Enabled;
    TurnSplits(w, f, turns);
    RunKeepsReady(claim, w, f.token, turns[0].others);
    SettleIsCanonical(f, turns[0].item);
    StepKeepsReady(claim, Before(w, turns), f.token, SettleOp(f, turns[0].item));
  }

  lemma RunFirst(w: World, op: Op, rest: seq<Op>)
    requires Runnable(w, [op] + rest)
    ensures Enabled(w, op) && Runnable(Next(w, op), rest) && Exec(w, [op] + rest) == Exec(Next(w, op), rest)
  {
    assert ([op] + rest)[1..] == rest;
    hide Enabled, Next;
  }

  lemma SettleIsCanonical(f: Flush, i: Item)
    ensures Canonical(SettleOp(f, i))
  {
  }

  lemma {:induction false} TurnsAccount(claim: Rows, w: World, t: Tally, f: Flush, turns: seq<Turn>)
    requires Ready(claim, w, f.token) && Runnable(w, Steps(f, turns))
    requires forall k :: 0 <= k < |turns| ==> AllCanonical(turns[k].others) && FromClaim(claim, turns[k].item)
    ensures var (t', outcomes) := Amid(w, t, f, turns);
      |outcomes| == |turns| && Tallies(t, t', outcomes, TurnsExcess(claim, f, turns, outcomes))
    decreases |turns|
  {
    hide Ready, Next, Exec, Runnable, Tallies, OutcomeExcess, FromClaim, Outcome, Holding, Counted, StateAfter,
      ItemVerdict, SettleOp, Steps;
    if turns != [] {
      TurnSplits(w, f, turns);
      TurnKeepsReady(claim, w, f, turns);
      var i, w1, w2 := turns[0].item, Before(w, turns), After(w, f, turns);
      var t1 := Counted(t, ItemVerdict(f, i), Holding(w1.db, f, i), i.attempts, f.queueMax);
      TurnsAccount(claim, w2, t1, f, turns[1..]);
      var (t', rest) := Amid(w2, t1, f, turns[1..]);
      OutcomeIs(claim, w1, f, i);
      OneMoreTallied(claim, t, t', f, i, Holding(w1.db, f, i), Outcome(w1.db, f, i), rest,
                     TurnsExcess(claim, f, turns[1..], rest));
      assert ([Outcome(w1.db, f, i)] + rest)[1..] == rest;
    } else {
      NoneTallied(t);
    }
  }

  lemma NoneTallied(t: Tally)
    ensures Tallies(t, t, [], 0) && HowMany([], Some(DeadLetter)) == 0
  {
  }

  // The settlements that found their lease and whose item the central service had refused.
  function RefusedTurns(f: Flush, turns: seq<Turn>, outcomes: seq<Option<State>>): nat
    requires |outcomes| == |turns|
  {
    if turns == [] then 0
    else
      (if outcomes[0].Some? && FirstRefusal(f.session, turns[0].item.payload, turns[0].item.reply).Some? then 1 else 0)
      + RefusedTurns(f, turns[1..], outcomes[1..])
  }

  lemma HeldHasOutcome(db: Db, f: Flush, i: Item)
    ensures Outcome(db, f, i).Some? <==> Holding(db, f, i)
  {
    hide VerdictOf;
  }

  lemma {:induction false} TurnsFailed(w: World, t: Tally, f: Flush, turns: seq<Turn>)
    ensures var (t', outcomes) := Amid(w, t, f, turns);
      |outcomes| == |turns| && t'.failed == t.failed + RefusedTurns(f, turns, outcomes)
    decreases |turns|
  {
    hide Outcome, Holding, VerdictOf, FirstRefusal, Before, After;
    if turns != [] {
      var i, db := turns[0].item, Before(w, turns).db;
      HeldHasOutcome(db, f, i);
      VerdictMeans(f.session, i.payload, i.reply);
      var t1 := Counted(t, ItemVerdict(f, i), Holding(db, f, i), i.attempts, f.queueMax);
      TurnsFailed(After(w, f, turns), t1, f, turns[1..]);
      var (t', rest) := Amid(After(w, f, turns), t1, f, turns[1..]);
      assert ([Outcome(db, f, i)] + rest)[1..] == rest;
    }
  }

  // ------------------------------------------------------------------- a pass from its claim

  function ItemsOf(turns: seq<Turn>): seq<Item> { seq(|turns|, k requires 0 <= k < |turns| => turns[k].item) }

  lemma ClaimMakesReady(w: World, chosen: set<Id>, f: Flush, limit: nat, filter: Option<Key>, lease: Time, now: Time,
                        items: seq<Item>)
    requires var claim := OpClaim(chosen, f.lessee, limit, filter, f.token, lease, now);
      && Inv(w) && CanonicalCameras(w.db.cameras) && Enabled(w, claim)
      && items != [] && ListsClaim(Next(w, claim).db.rows, chosen, items)
    ensures var claimed := Next(w, OpClaim(chosen, f.lessee, limit, filter, f.token, lease, now));
      && Ready(claimed.db.rows, claimed, f.token)
      && forall k :: 0 <= k < |items| ==> FromClaim(claimed.db.rows, items[k])
  {
    var claim := OpClaim(chosen, f.lessee, limit, filter, f.token, lease, now);
    var claimed := Next(w, claim);
    StepKeepsInv(w, claim);
    StepKeepsCanonical(w.db, claim);
    NextApplies(w, claim);
    var q := items[0].id;
    ClaimLeases(w, chosen, f.lessee, limit, filter, f.token, lease, now, q);
    assert forall k :: 0 <= k < |items| ==> Holds(claimed.db.rows, items[k]);
    hide Inv, Next, Enabled, Apply, CanonicalCameras, ListsClaim;
  }

  lemma ClaimLeases(w: World, chosen: set<Id>, lessee: string, limit: nat, filter: Option<Key>, token: Token,
                    lease: Time, now: Time, q: Id)
    requires ClaimSet(Expire(w.db.rows, now), chosen, now, filter, limit) && q in chosen
    ensures token in Next(w, OpClaim(chosen, lessee, limit, filter, token, lease, now)).log.tokens
  {
    var claim := OpClaim(chosen, lessee, limit, filter, token, lease, now);
    hide Next, Expire, Lease, ClaimSet;
    NextApplies(w, claim);
    ChosenCarryToken(Expire(w.db.rows, now), chosen, lessee, limit, filter, token, now + lease, now, q);
    TokenObserved(w, claim, q);
  }

  lemma ChosenCarryToken(rows: Rows, chosen: set<Id>, lessee: string, limit: nat, filter: Option<Key>, token: Token,
                         expires: Time, now: Time, q: Id)
    requires ClaimSet(rows, chosen, now, filter, limit) && q in chosen
    ensures var rows' := Lease(rows, chosen, token, lessee, expires, now); q in rows' && rows'[q].token == Some(token)
  {
    assert Claimable(rows, q, now, filter);
  }

  lemma TokenObserved(w: World, op: Op, q: Id)
    requires q in Next(w, op).db.rows && Next(w, op).db.rows[q].token.Some?
    ensures Next(w, op).db.rows[q].token.value in Next(w, op).log.tokens
  {
    hide Apply;
  }

  lemma {:induction false} AgreeingTurnsHaveNoExcess(claim: Rows, f: Flush, turns: seq<Turn>,
                                                     outcomes: seq<Option<State>>)
    requires |outcomes| == |turns| && AllLimitsAgree(claim, f.session, ItemsOf(turns), f.queueMax)
    requires forall k :: 0 <= k < |turns| ==> FromClaim(claim, turns[k].item)
    ensures TurnsExcess(claim, f, turns, outcomes) == 0
    decreases |turns|
  {
    if turns != [] {
      assert ItemsOf(turns)[0] == turns[0].item;
      VerdictsOfReplies(f.session, turns[0].item.payload);
      hide VerdictOf, Asks;
      assert forall k :: 0 <= k < |turns| - 1 ==> ItemsOf(turns[1..])[k] == ItemsOf(turns)[k + 1];
      AgreeingTurnsHaveNoExcess(claim, f, turns[1..], outcomes[1..]);
    }
  }

  /** Any run, the pass's claim, and then other transactions of any kind before each of its
      settlements: the counters still account for what each settlement did.  `synced` is the
      number of rows it moved to succeeded, `dead_lettered` differs from the number it buried
      by exactly the excess of rows whose own attempt limit, as claimed, and the queue's
      disagree, `failed` is the number it made after a refusal, and an item whose lease was lost
      in between is counted nowhere. */
  lemma InterleavedPassAccounts(ops: seq<Op>, chosen: set<Id>, f: Flush, limit: nat, filter: Option<Key>, lease: Time,
                                now: Time, turns: seq<Turn>)
    requires var claim := OpClaim(chosen, f.lessee, limit, filter, f.token, lease, now);
      && Runnable(Empty, ops + ([claim] + Steps(f, turns))) && AllCanonical(ops)
      && (forall k :: 0 <= k < |turns| ==> AllCanonical(turns[k].others))
      && ListsClaim(Next(Exec(Empty, ops), claim).db.rows, chosen, ItemsOf(turns))
    ensures var claimed := Next(Exec(Empty, ops), OpClaim(chosen, f.lessee, limit, filter, f.token, lease, now));
      var (t, outcomes) := Amid(claimed, Tally(0, 0, 0), f, turns);
      && |outcomes| == |turns|
      && Tallies(Tally(0, 0, 0), t, outcomes, TurnsExcess(claimed.db.rows, f, turns, outcomes))
      && (AllLimitsAgree(claimed.db.rows, f.session, ItemsOf(turns), f.queueMax) ==>
            t.dead == HowMany(outcomes, Some(DeadLetter)))
      && t.failed == RefusedTurns(f, turns, outcomes)
  {
    var claim := OpClaim(chosen, f.lessee, limit, filter, f.token, lease, now);
    var w, claimed := Exec(Empty, ops), Next(Exec(Empty, ops), claim);
    hide Ready, Next, Inv, Enabled, Tallies, FromClaim, AllLimitsAgree, ListsClaim, AllCanonical, Amid, TurnsExcess,
      HowMany, RefusedTurns, Steps, Exec, Runnable, CanonicalCameras;
    TurnsFailed(claimed, Tally(0, 0, 0), f, turns);
    ExecSplit(Empty, ops, [claim] + Steps(f, turns));
    RunFirst(w, claim, Steps(f, turns));
    RunFromEmpty(ops);
    if turns == [] {
      NoTurns(claimed, f, turns);
      NoneTallied(Tally(0, 0, 0));
    } else {
      ClaimMakesReady(w, chosen, f, limit, filter, lease, now, ItemsOf(turns));
      assert forall k :: 0 <= k < |turns| ==> turns[k].item == ItemsOf(turns)[k];
      TurnsAccount(claimed.db.rows, claimed, Tally(0, 0, 0), f, turns);
      ExactWhenAgreed(claimed, f, turns);
    }
  }

  lemma NoTurns(w: World, f: Flush, turns: seq<Turn>)
    requires turns == []
    ensures Amid(w, Tally(0, 0, 0), f, turns) == (Tally(0, 0, 0), [])
    ensures TurnsExcess(w.db.rows, f, turns, []) == 0
  {
    hide Before, After, Counted, Outcome, Holding, OutcomeExcess, ItemVerdict;
  }

  lemma ExactWhenAgreed(w: World, f: Flush, turns: seq<Turn>)
    requires var (t, outcomes) := Amid(w, Tally(0, 0, 0), f, turns);
      |outcomes| == |turns| && Tallies(Tally(0, 0, 0), t, outcomes, TurnsExcess(w.db.rows, f, turns, outcomes))
    requires forall k :: 0 <= k < |turns| ==> FromClaim(w.db.rows, turns[k].item)
    ensures AllLimitsAgree(w.db.rows, f.session, ItemsOf(turns), f.queueMax) ==>
      var (t, outcomes) := Amid(w, Tally(0, 0, 0), f, turns); t.dead == HowMany(outcomes, Some(DeadLetter))
  {
    hide Amid, AllLimitsAgree, TurnsExcess, ItemsOf, FromClaim, HowMany;
    if AllLimitsAgree(w.db.rows, f.session, ItemsOf(turns), f.queueMax) {
      AgreeingTurnsHaveNoExcess(w.db.rows, f, turns, Amid(w, Tally(0, 0, 0), f, turns).1);
    }
  }

  // The claim is made in a state that keeps the invariant.
  lemma RunFromEmpty(ops: seq<Op>)
    requires Runnable(Empty, ops) && AllCanonical(ops)
    ensures Inv(Exec(Empty, ops)) && CanonicalCameras(Exec(Empty, ops).db.cameras)
  {
    EmptyInv();
    RunKeepsInv(Empty, ops);
    hide Inv, Runnable;
    RunKeepsCanonical(Empty, ops);
  }

  lemma {:induction false} RunKeepsCanonical(w: World, ops: seq<Op>)
    requires CanonicalCameras(w.db.cameras) && AllCanonical(ops)
    ensures CanonicalCameras(Exec(w, ops).db.cameras)
    decreases |ops|
  {
    if ops != [] {
      StepKeepsCanonical(w.db, ops[0]);
      NextApplies(w, ops[0]);
      hide Next, Apply, CanonicalCameras, Enabled;
      RunKeepsCanonical(Next(w, ops[0]), ops[1..]);
    }
  }

  // ------------------------------------------------------------------ what was counted synced

  lemma SucceededStay(w: World, op: Op, q: Id)
    requires q in w.log.succeeded
    ensures q in Next(w, op).log.succeeded
  {
  }

  lemma {:induction false} RunSucceededStay(w: World, ops: seq<Op>, q: Id)
    requires q in w.log.succeeded
    ensures q in Exec(w, ops).log.succeeded
    decreases |ops|
  {
    hide Next;
    if ops != [] {
      SucceededStay(w, ops[0], q);
      RunSucceededStay(Next(w, ops[0]), ops[1..], q);
    }
  }

  lemma OutcomeRecorded(w: World, f: Flush, i: Item)
    requires Outcome(w.db, f, i) == Some(Succeeded)
    ensures i.id in Next(w, SettleOp(f, i)).log.succeeded
  {
    hide Apply, SettleOp, Holding;
  }

  /** Every row the pass counts as synced is on record as succeeded when the pass ends. */
  lemma {:induction false} SyncedIsRecorded(w: World, t: Tally, f: Flush, turns: seq<Turn>, k: nat)
    requires Runnable(w, Steps(f, turns)) && k < |turns|
    ensures var outcomes := Amid(w, t, f, turns).1;
      && |outcomes| == |turns|
      && (outcomes[k] == Some(Succeeded) ==> turns[k].item.id in Exec(w, Steps(f, turns)).log.succeeded)
    decreases |turns|
  {
    hide Next, Exec, Runnable, Outcome, Holding, Counted, ItemVerdict, SettleOp, Steps;
    AmidLength(w, t, f, turns);
    TurnSplits(w, f, turns);
    var i, w1, w2 := turns[0].item, Before(w, turns), After(w, f, turns);
    if k > 0 {
      var t1 := Counted(t, ItemVerdict(f, i), Holding(w1.db, f, i), i.attempts, f.queueMax);
      SyncedIsRecorded(w2, t1, f, turns[1..], k - 1);
    } else if Outcome(w1.db, f, i) == Some(Succeeded) {
      OutcomeRecorded(w1, f, i);
      RunSucceededStay(w2, Steps(f, turns[1..]), i.id);
    }
  }

  lemma {:induction false} AmidLength(w: World, t: Tally, f: Flush, turns: seq<Turn>)
    ensures |Amid(w, t, f, turns).1| == |turns|
    decreases |turns|
  {
    hide Before, After, Outcome, Holding, Counted, ItemVerdict;
    if turns != [] {
      var i, w1 := turns[0].item, Before(w, turns);
      AmidLength(After(w, f, turns), Counted(t, ItemVerdict(f, i), Holding(w1.db, f, i), i.attempts, f.queueMax), f,
                 turns[1..]);
    }
  }

  lemma QuietTurn(w: World, f: Flush, turns: seq<Turn>)
    requires turns != [] && turns[0].others == []
    ensures Exec(w, Steps(f, turns)) == Exec(After(w, f, turns), Steps(f, turns[1..]))
    ensures After(w, f, turns).db == Settled(w.db, f.session, turns[0].item, f.token, f.lessee)
  {
    hide Next, VerdictOf, SettlementOf, Apply;
    var op, rest := SettleOp(f, turns[0].item), Steps(f, turns[1..]);
    NextApplies(w, op);
    assert Steps(f, turns) == [op] + rest by { hide Exec, Before, After; }
    hide Steps, SettleOp;
    assert ([op] + rest)[1..] == rest;
  }

  lemma FirstOfItems(turns: seq<Turn>)
    requires turns != []
    ensures ItemsOf(turns) != [] && ItemsOf(turns)[0] == turns[0].item && ItemsOf(turns)[1..] == ItemsOf(turns[1..])
  {
  }

  lemma QuietAmid(w: World, t: Tally, f: Flush, turns: seq<Turn>)
    requires turns != [] && turns[0].others == []
    ensures var t1 := NextTally(w.db, t, f.session, turns[0].item, f.token, f.lessee, f.queueMax);
      Amid(w, t, f, turns).0 == Amid(After(w, f, turns), t1, f, turns[1..]).0
  {
    hide Next, VerdictOf, Apply, Counted, Outcome, Owned;
  }

  /** With nothing in between the pass is the uninterrupted one. */
  lemma {:induction false} QuietTurnsArePass(w: World, t: Tally, f: Flush, turns: seq<Turn>)
    requires forall k :: 0 <= k < |turns| ==> turns[k].others == []
    ensures (Exec(w, Steps(f, turns)).db, Amid(w, t, f, turns).0)
         == Pass(w.db, t, f.session, ItemsOf(turns), f.token, f.lessee, f.queueMax)
    decreases |turns|
  {
    hide Before, After, Settled, Next, NextTally;
    if turns != [] {
      var t1 := NextTally(w.db, t, f.session, turns[0].item, f.token, f.lessee, f.queueMax);
      QuietTurn(w, f, turns);
      FirstOfItems(turns);
      QuietTurnsArePass(After(w, f, turns), t1, f, turns[1..]);
      QuietAmid(w, t, f, turns);
      FirstOfPass(w.db, t, f, ItemsOf(turns));
      hide Amid, Pass, Exec, Steps, ItemsOf;
    }
  }

  lemma FirstOfPass(db: Db, t: Tally, f: Flush, items: seq<Item>)
    requires items != []
    ensures Pass(db, t, f.session, items, f.token, f.lessee, f.queueMax)
         == Pass(Settled(db, f.session, items[0], f.token, f.lessee),
                 NextTally(db, t, f.session, items[0], f.token, f.lessee, f.queueMax), f.session, items[1..], f.token,
                 f.lessee, f.queueMax)
  {
    hide Settled, Counted, VerdictOf, Owned;
  }
}
