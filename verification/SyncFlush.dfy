/**
 One pass of the sync service: claim rows, send each to the central service and
 settle it with the answer.  The answers are inputs.
 */
module SyncFlush {
  import opened Prelude
  import opened CentralTables
  import opened SyncModel
  import opened SyncEffects
  import opened SyncStore

  datatype Answer = Accepted(serverId: Option<Id>) | Refused(status: int, retryable: bool)

  // What the central service answers to a row's request and to its analytics-config request.
  datatype Reply = Reply(main: Answer, analytics: Answer)

  datatype Verdict =
    | Finish
    | FinishCamera(local: Id)
    | FinishRevocation(generation: nat)
    | Contract                     // PermanentContractError
    | External(permanent: bool)    // ExternalServiceError

  function Rejection(a: Answer): Verdict
    requires a.Refused?
  {
    External(!a.retryable && 400 <= a.status < 500)
  }

  // The central camera must carry the local identity.
  function CameraVerdict(local: Id, main: Answer): Verdict {
    if main.Accepted? && main.serverId.Some? && main.serverId.value != local then Contract else FinishCamera(local)
  }

  function VerdictOf(session: Session, payload: Payload, reply: Reply): Verdict {
    match payload
    case SessionRevoke(g) =>
      if session.status != RevocationPending || g != session.generation then Finish
      else if reply.main.Refused? && reply.main.status != 401 && reply.main.status != 403 then Rejection(reply.main)
      else FinishRevocation(g)
    case CameraPost(local, _) => if reply.main.Refused? then Rejection(reply.main) else CameraVerdict(local, reply.main)
    case CameraPatch(local, body, analytics) =>
      if body != map[] && reply.main.Refused? then Rejection(reply.main)
      else if analytics.Some? && analytics.value != map[] && reply.analytics.Refused? then Rejection(reply.analytics)
      else CameraVerdict(local, if body == map[] then Accepted(None) else reply.main)
    case CameraDelete(_) => if reply.main.Refused? && reply.main.status != 404 then Rejection(reply.main) else Finish
    case Deliver(_) => if reply.main.Refused? then Rejection(reply.main) else Finish
  }

  // A revocation is sent only for the session that is waiting for it, a PATCH only if it has a body.
  predicate AsksMain(session: Session, payload: Payload) {
    match payload
    case SessionRevoke(g) => session.status == RevocationPending && session.generation == g
    case CameraPatch(_, body, _) => body != map[]
    case _ => true
  }

  predicate AsksAnalytics(payload: Payload) {
    payload.CameraPatch? && payload.analytics.Some? && payload.analytics.value != map[]
  }

  // A camera that is gone already, and a session that is over already, are as good as done.
  predicate Excused(payload: Payload, status: int) {
    (payload.CameraDelete? && status == 404) || (payload.SessionRevoke? && (status == 401 || status == 403))
  }

  // The first request the central service refused, the camera's before its analytics.
  function FirstRefusal(session: Session, payload: Payload, reply: Reply): Option<Answer> {
    if AsksMain(session, payload) && reply.main.Refused? && !Excused(payload, reply.main.status) then Some(reply.main)
    else if AsksAnalytics(payload) && reply.analytics.Refused? then Some(reply.analytics)
    else None
  }

  // The central service has this camera under another identity.
  predicate WrongIdentity(session: Session, payload: Payload, reply: Reply) {
    && (payload.CameraPost? || payload.CameraPatch?) && AsksMain(session, payload)
    && reply.main.Accepted? && reply.main.serverId.Some? && reply.main.serverId.value != payload.camera
  }

  /** What a row's verdict rests on: the first refusal decides, permanent if it is a client error that
      is not worth a retry; then the camera's identity must be the local one; else the row is done, a
      camera with its identity, a revocation with the session's end. */
  lemma VerdictMeans(session: Session, payload: Payload, reply: Reply)
    ensures var v, refusal := VerdictOf(session, payload, reply), FirstRefusal(session, payload, reply);
      && (v.External? <==> refusal.Some?)
      && (v.External? ==> (v.permanent <==> !refusal.value.retryable && 400 <= refusal.value.status < 500))
      && (v.Contract? <==> refusal.None? && WrongIdentity(session, payload, reply))
      && (v.FinishCamera? <==>
            (payload.CameraPost? || payload.CameraPatch?) && refusal.None? && !WrongIdentity(session, payload, reply))
      && (v.FinishCamera? ==> v.local == payload.camera)
      && (v.FinishRevocation? <==> payload.SessionRevoke? && AsksMain(session, payload) && refusal.None?)
      && (v.FinishRevocation? ==> v.generation == payload.generation)
  {
  }

  // An accepted row is settled as succeeded, whichever of the three ways.
  predicate Finishes(v: Verdict) { v.Finish? || v.FinishCamera? || v.FinishRevocation? }

  function SettlementOf(v: Verdict, id: Id, token: Token, lessee: string, now: Time): Op {
    match v
    case Finish => OpComplete(id, token, lessee, now)
    case FinishCamera(local) => OpCompleteCamera(id, token, lessee, local, local, now)
    case FinishRevocation(g) => OpCompleteRevocation(id, token, lessee, g, now)
    case Contract => OpFail(id, token, lessee, true, now)
    case External(permanent) => OpFail(id, token, lessee, permanent, now)
  }

  datatype Tally = Tally(synced: nat, failed: nat, dead: nat)

  // The counters after one item; ok: the settlement found the lease still held.
  function Counted(t: Tally, v: Verdict, ok: bool, attempts: nat, queueMax: nat): Tally {
    if !ok then t
    else if Finishes(v) then t.(synced := t.synced + 1)
    else if v.Contract? then t.(dead := t.dead + 1)
    else t.(failed := t.failed + 1, dead := t.dead + if v.permanent || attempts >= queueMax then 1 else 0)
  }

  // A claimed item as the pass holds it: identifier, payload and attempt count at the claim, answer, settling time.
  datatype Item = Item(id: Id, payload: Payload, attempts: nat, reply: Reply, at: Time)

  ghost function Settled(db: Db, session: Session, i: Item, token: Token, lessee: string): Db {
    Apply(db, SettlementOf(VerdictOf(session, i.payload, i.reply), i.id, token, lessee, i.at))
  }

  ghost function Pass(db: Db, t: Tally, session: Session, items: seq<Item>, token: Token, lessee: string,
                      queueMax: nat): (Db, Tally)
    decreases |items|
  {
    if items == [] then (db, t)
    else
      var i := items[0];
      var ok := Owned(db.rows, i.id, token, lessee, i.at);
      var v := VerdictOf(session, i.payload, i.reply);
      Pass(Settled(db, session, i, token, lessee), Counted(t, v, ok, i.attempts, queueMax),
           session, items[1..], token, lessee, queueMax)
  }

  // -------------------------------------------------------------------- accounting

  // The items whose row is in this state.
  function InState(rows: Rows, items: seq<Item>, state: State): nat
    decreases |items|
  {
    if items == [] then 0
    else (if items[0].id in rows && rows[items[0].id].state == state then 1 else 0) + InState(rows, items[1..], state)
  }

  predicate DistinctIds(items: seq<Item>) {
    forall i, j :: 0 <= i < j < |items| ==> items[i].id != items[j].id
  }

  // The item's row is as the claim left it.
  predicate IsFresh(rows: Rows, i: Item) {
    i.id in rows && rows[i.id].state == Inflight && rows[i.id].attempts == i.attempts
  }

  predicate FreshlyClaimed(rows: Rows, items: seq<Item>) {
    forall i :: 0 <= i < |items| ==> IsFresh(rows, items[i])
  }

  // Every camera known to the central service carries its local identity there.
  predicate CanonicalCameras(cameras: map<Id, Camera>) {
    forall c :: c in cameras && cameras[c].serverId.Some? ==> cameras[c].serverId == Some(c)
  }

  // The state a settlement leaves a row with this attempt limit in.
  function StateAfter(v: Verdict, ok: bool, attempts: nat, maxAttempts: nat): State {
    if !ok then Inflight
    else if Finishes(v) then Succeeded
    else if v.Contract? || v.permanent || attempts >= maxAttempts then DeadLetter
    else RetryWait
  }

  // What a settlement does to the one row it names.
  ghost predicate MovesOneRow(db: Db, db': Db, id: Id, state: State) {
    && CanonicalCameras(db'.cameras)
    && id in db'.rows && db'.rows == db.rows[id := db'.rows[id]] && db'.rows[id].state == state
  }

  lemma CameraSettles(db: Db, id: Id, token: Token, lessee: string, local: Id, at: Time)
    requires CanonicalCameras(db.cameras) && id in db.rows && db.rows[id].state == Inflight
    ensures MovesOneRow(db, CompleteCamera(db, id, token, lessee, local, local, at), id,
                        if Owned(db.rows, id, token, lessee, at) then Succeeded else Inflight)
  {
    assert !ServerIdTaken(db.cameras, local, local);
  }

  lemma PlainSettles(db: Db, id: Id, token: Token, lessee: string, at: Time, g: nat)
    requires CanonicalCameras(db.cameras) && id in db.rows && db.rows[id].state == Inflight
    ensures var state := if Owned(db.rows, id, token, lessee, at) then Succeeded else Inflight;
      && MovesOneRow(db, Complete(db, id, token, lessee, at), id, state)
      && MovesOneRow(db, CompleteRevocation(db, id, token, lessee, g, at), id, state)
  {
  }

  lemma FailSettles(db: Db, id: Id, token: Token, lessee: string, permanent: bool, at: Time)
    requires CanonicalCameras(db.cameras) && id in db.rows && db.rows[id].state == Inflight
    ensures MovesOneRow(db, db.(rows := Fail(db.rows, id, token, lessee, permanent, at)), id,
                        if !Owned(db.rows, id, token, lessee, at) then Inflight
                        else if permanent || db.rows[id].attempts >= db.rows[id].maxAttempts then DeadLetter
                        else RetryWait)
  {
  }

  lemma SettlesOneRow(db: Db, session: Session, i: Item, token: Token, lessee: string)
    requires CanonicalCameras(db.cameras) && IsFresh(db.rows, i)
    ensures MovesOneRow(db, Settled(db, session, i, token, lessee), i.id,
                        StateAfter(VerdictOf(session, i.payload, i.reply), Owned(db.rows, i.id, token, lessee, i.at),
                                   i.attempts, db.rows[i.id].maxAttempts))
  {
    match VerdictOf(session, i.payload, i.reply) {
      case Finish => PlainSettles(db, i.id, token, lessee, i.at, 0);
      case FinishCamera(local) => CameraSettles(db, i.id, token, lessee, local, i.at);
      case FinishRevocation(g) => PlainSettles(db, i.id, token, lessee, i.at, g);
      case Contract => FailSettles(db, i.id, token, lessee, true, i.at);
      case External(permanent) => FailSettles(db, i.id, token, lessee, permanent, i.at);
    }
    hide VerdictOf, MovesOneRow, Complete, CompleteCamera, CompleteRevocation, Fail, Owned;
  }

  function NextTally(db: Db, t: Tally, session: Session, i: Item, token: Token, lessee: string, queueMax: nat): Tally {
    Counted(t, VerdictOf(session, i.payload, i.reply), Owned(db.rows, i.id, token, lessee, i.at), i.attempts, queueMax)
  }

  lemma RestIsFresh(db: Db, db': Db, items: seq<Item>, state: State)
    requires items != [] && DistinctIds(items) && FreshlyClaimed(db.rows, items)
    requires MovesOneRow(db, db', items[0].id, state)
    ensures DistinctIds(items[1..]) && FreshlyClaimed(db'.rows, items[1..])
  {
    forall k | 0 <= k < |items| - 1 ensures items[1..][k] == items[k + 1] && IsFresh(db'.rows, items[k + 1]) {
      assert IsFresh(db.rows, items[k + 1]);
    }
  }

  lemma {:induction false} PassTouchesItsItems(db: Db, t: Tally, session: Session, items: seq<Item>, token: Token,
                                               lessee: string, queueMax: nat)
    requires DistinctIds(items) && FreshlyClaimed(db.rows, items) && CanonicalCameras(db.cameras)
    ensures var rows' := Pass(db, t, session, items, token, lessee, queueMax).0.rows;
      && rows'.Keys == db.rows.Keys
      && forall q :: q in db.rows && (forall i :: 0 <= i < |items| ==> items[i].id != q) ==> rows'[q] == db.rows[q]
    decreases |items|
  {
    if items != [] {
      var db' := Settled(db, session, items[0], token, lessee);
      SettlesOneRow(db, session, items[0], token, lessee);
      hide Settled, VerdictOf, Owned, StateAfter, Counted, IsFresh;
      RestIsFresh(db, db', items, db'.rows[items[0].id].state);
      var t' := NextTally(db, t, session, items[0], token, lessee, queueMax);
      PassTouchesItsItems(db', t', session, items[1..], token, lessee, queueMax);
      assert forall i :: 0 <= i < |items| - 1 ==> items[1..][i] == items[i + 1];
    }
  }

  // Row and queue say the same about this attempt count.
  predicate LimitsAgree(r: Row, queueMax: nat) { r.attempts >= r.maxAttempts <==> r.attempts >= queueMax }

  // By how much the dead letters made of the items exceed those counted: after a transient
  // refusal a row is buried by its own attempt limit and counted by the queue's.
  function Excess(rows: Rows, session: Session, items: seq<Item>, token: Token, lessee: string, queueMax: nat): int
    decreases |items|
  {
    if items == [] then 0
    else
      var rest := Excess(rows, session, items[1..], token, lessee, queueMax);
      ItemExcess(rows, session, items[0], token, lessee, queueMax) + rest
  }

  function ItemExcess(rows: Rows, session: Session, i: Item, token: Token, lessee: string, queueMax: nat): int {
    if Owned(rows, i.id, token, lessee, i.at) && VerdictOf(session, i.payload, i.reply) == External(false) then
      (if i.attempts >= rows[i.id].maxAttempts then 1 else 0) - (if i.attempts >= queueMax then 1 else 0)
    else 0
  }

  // From counters t to t' the pass accounts for the state each item's row ended in.
  predicate Accounts(t: Tally, t': Tally, rows: Rows, items: seq<Item>, excess: int) {
    && t'.synced == t.synced + InState(rows, items, Succeeded)
    && t'.dead + excess == t.dead + InState(rows, items, DeadLetter)
    && t.failed + InState(rows, items, RetryWait) <= t'.failed
    && t'.failed <= t.failed + InState(rows, items, RetryWait) + InState(rows, items, DeadLetter)
    && |items| == InState(rows, items, Succeeded) + InState(rows, items, DeadLetter)
                + InState(rows, items, RetryWait) + InState(rows, items, Inflight)
  }

  lemma OneMoreAccounted(t: Tally, session: Session, i: Item, ok: bool, max: nat, queueMax: nat, t': Tally,
                         rows: Rows, rest: seq<Item>, own: int, excess: int)
    requires var v := VerdictOf(session, i.payload, i.reply);
      && i.id in rows && rows[i.id].state == StateAfter(v, ok, i.attempts, max)
      && Accounts(Counted(t, v, ok, i.attempts, queueMax), t', rows, rest, excess)
      && own == (if ok && v == External(false)
                 then (if i.attempts >= max then 1 else 0) - (if i.attempts >= queueMax then 1 else 0) else 0)
    ensures Accounts(t, t', rows, [i] + rest, own + excess)
  {
    hide VerdictOf;
    assert ([i] + rest)[1..] == rest;
  }

  lemma {:induction false} ExcessElsewhere(rows: Rows, id: Id, r: Row, session: Session, items: seq<Item>, token: Token,
                                           lessee: string, queueMax: nat)
    requires forall k :: 0 <= k < |items| ==> items[k].id != id
    ensures Excess(rows[id := r], session, items, token, lessee, queueMax)
         == Excess(rows, session, items, token, lessee, queueMax)
    decreases |items|
  {
    hide VerdictOf;
    if items != [] { ExcessElsewhere(rows, id, r, session, items[1..], token, lessee, queueMax); }
  }

  // From the accounting of the other items to that of all.
  lemma FirstAccounted(db: Db, db1: Db, rows: Rows, t: Tally, t': Tally, session: Session, items: seq<Item>,
                       token: Token, lessee: string, queueMax: nat)
    requires items != [] && DistinctIds(items) && IsFresh(db.rows, items[0])
    requires var i := items[0]; var ok := Owned(db.rows, i.id, token, lessee, i.at);
      MovesOneRow(db, db1, i.id,
                  StateAfter(VerdictOf(session, i.payload, i.reply), ok, i.attempts, db.rows[i.id].maxAttempts))
    requires items[0].id in rows && rows[items[0].id] == db1.rows[items[0].id]
    requires Accounts(NextTally(db, t, session, items[0], token, lessee, queueMax), t', rows, items[1..],
                      Excess(db1.rows, session, items[1..], token, lessee, queueMax))
    ensures Accounts(t, t', rows, items, Excess(db.rows, session, items, token, lessee, queueMax))
  {
    var i, rest := items[0], items[1..];
    hide VerdictOf, Owned, Accounts, StateAfter, Counted;
    ExcessElsewhere(db.rows, i.id, db1.rows[i.id], session, rest, token, lessee, queueMax);
    OneMoreAccounted(t, session, i, Owned(db.rows, i.id, token, lessee, i.at), db.rows[i.id].maxAttempts, queueMax,
                     t', rows, rest, ItemExcess(db.rows, session, i, token, lessee, queueMax),
                     Excess(db1.rows, session, rest, token, lessee, queueMax));
    assert items == [i] + rest;
  }

  /** The counters of a pass account for the claimed rows, whatever attempt limits the rows
      carry: `synced` is how many of them ended succeeded, `dead_lettered` differs from how
      many ended as dead letters by exactly the excess, every row that waits for a retry and
      no row that succeeded was counted failed.  Rows whose lease ran out meanwhile stay in
      flight and are counted nowhere; no other row moves. */
  lemma {:induction false} PassAccounts(db: Db, t: Tally, session: Session, items: seq<Item>, token: Token,
                                        lessee: string, queueMax: nat)
    requires DistinctIds(items) && FreshlyClaimed(db.rows, items) && CanonicalCameras(db.cameras)
    ensures var (db', t') := Pass(db, t, session, items, token, lessee, queueMax);
      Accounts(t, t', db'.rows, items, Excess(db.rows, session, items, token, lessee, queueMax))
    decreases |items|
  {
    if items != [] {
      var i, rest := items[0], items[1..];
      var db1 := Settled(db, session, i, token, lessee);
      var t1 := NextTally(db, t, session, i, token, lessee, queueMax);
      SettlesOneRow(db, session, i, token, lessee);
      hide Settled, VerdictOf, Owned, Accounts, StateAfter, Counted, IsFresh;
      RestIsFresh(db, db1, items, db1.rows[i.id].state);
      PassTouchesItsItems(db1, t1, session, rest, token, lessee, queueMax);
      PassAccounts(db1, t1, session, rest, token, lessee, queueMax);
      assert forall k :: 0 <= k < |rest| ==> rest[k] == items[k + 1];
      var (db', t') := Pass(db1, t1, session, rest, token, lessee, queueMax);
      FirstAccounted(db, db1, db'.rows, t, t', session, items, token, lessee, queueMax);
    } else {
      assert Accounts(t, t, db.rows, items, 0);
    }
  }

  // The central service refused the item while its lease was held.
  predicate MetRefusal(rows: Rows, session: Session, i: Item, token: Token, lessee: string) {
    HeldBy(rows, i.id, token, lessee, i.at) && FirstRefusal(session, i.payload, i.reply).Some?
  }

  function Refusals(rows: Rows, session: Session, items: seq<Item>, token: Token, lessee: string): nat
    decreases |items|
  {
    if items == [] then 0
    else
      var rest := Refusals(rows, session, items[1..], token, lessee);
      rest + if MetRefusal(rows, session, items[0], token, lessee) then 1 else 0
  }

  lemma {:induction false} RefusalsElsewhere(rows: Rows, id: Id, r: Row, session: Session, items: seq<Item>,
                                             token: Token, lessee: string)
    requires forall k :: 0 <= k < |items| ==> items[k].id != id
    ensures Refusals(rows[id := r], session, items, token, lessee) == Refusals(rows, session, items, token, lessee)
    decreases |items|
  {
    hide FirstRefusal;
    if items != [] { RefusalsElsewhere(rows, id, r, session, items[1..], token, lessee); }
  }

  lemma RefusalIsFailed(db: Db, t: Tally, session: Session, i: Item, token: Token, lessee: string, queueMax: nat)
    ensures NextTally(db, t, session, i, token, lessee, queueMax).failed
         == t.failed + if MetRefusal(db.rows, session, i, token, lessee) then 1 else 0
  {
    hide VerdictOf, FirstRefusal, Owned, HeldBy;
    VerdictMeans(session, i.payload, i.reply);
    OwnedIff(db.rows, i.id, token, lessee, i.at);
  }

  /** `failed` is exactly the number of items the central service refused while their lease was
      held; a camera under another identity there is counted dead and not failed. */
  lemma {:induction false} FailedAreRefusals(db: Db, t: Tally, session: Session, items: seq<Item>, token: Token,
                                             lessee: string, queueMax: nat)
    requires DistinctIds(items) && FreshlyClaimed(db.rows, items) && CanonicalCameras(db.cameras)
    ensures Pass(db, t, session, items, token, lessee, queueMax).1.failed
         == t.failed + Refusals(db.rows, session, items, token, lessee)
    decreases |items|
  {
    if items != [] {
      var i, rest := items[0], items[1..];
      var db1 := Settled(db, session, i, token, lessee);
      SettlesOneRow(db, session, i, token, lessee);
      RefusalIsFailed(db, t, session, i, token, lessee, queueMax);
      hide Settled, VerdictOf, FirstRefusal, MetRefusal, Owned, StateAfter, Counted, IsFresh;
      RestIsFresh(db, db1, items, db1.rows[i.id].state);
      FailedAreRefusals(db1, NextTally(db, t, session, i, token, lessee, queueMax), session, rest, token, lessee,
                        queueMax);
      assert forall k :: 0 <= k < |rest| ==> rest[k] == items[k + 1];
      RefusalsElsewhere(db.rows, i.id, db1.rows[i.id], session, rest, token, lessee);
    }
  }

  // ----------------------------------------------- when the dead letters are counted right

  // Settling a row with this payload asks the central service something, which it can refuse.
  predicate Asks(session: Session, payload: Payload) {
    match payload
    case SessionRevoke(g) => session.status == RevocationPending && g == session.generation
    case CameraPatch(_, body, analytics) => body != map[] || (analytics.Some? && analytics.value != map[])
    case _ => true
  }

  const Unavailable := Reply(Refused(503, true), Refused(503, true))
  const Fine := Reply(Accepted(None), Accepted(None))

  lemma VerdictsOfReplies(session: Session, payload: Payload)
    ensures Finishes(VerdictOf(session, payload, Fine))
    ensures Asks(session, payload) ==> VerdictOf(session, payload, Unavailable) == External(false)
    ensures !Asks(session, payload) ==> forall reply :: !VerdictOf(session, payload, reply).External?
  {
  }

  // The row, settled with this answer, became a dead letter.
  ghost predicate Buried(db: Db, session: Session, i: Item, token: Token, lessee: string) {
    var rows := Settled(db, session, i, token, lessee).rows;
    i.id in rows && rows[i.id].state == DeadLetter
  }

  // ... and was counted as one.
  predicate CountedDead(db: Db, session: Session, i: Item, token: Token, lessee: string, queueMax: nat) {
    NextTally(db, Tally(0, 0, 0), session, i, token, lessee, queueMax).dead == 1
  }

  /** A claimed row that asks the central service something is counted dead exactly when it
      becomes a dead letter, for every answer, if and only if its own attempt limit and the
      queue's agree about its attempt count. */
  lemma DeadIsCountedIff(db: Db, session: Session, i: Item, token: Token, lessee: string, queueMax: nat)
    requires Owned(db.rows, i.id, token, lessee, i.at) && IsFresh(db.rows, i) && CanonicalCameras(db.cameras)
    requires Asks(session, i.payload)
    ensures (forall reply {:trigger i.(reply := reply)} ::
               Buried(db, session, i.(reply := reply), token, lessee)
               <==> CountedDead(db, session, i.(reply := reply), token, lessee, queueMax))
       <==> LimitsAgree(db.rows[i.id], queueMax)
  {
    forall reply
      ensures (Buried(db, session, i.(reply := reply), token, lessee)
               <==> CountedDead(db, session, i.(reply := reply), token, lessee, queueMax))
         <==> (VerdictOf(session, i.payload, reply) == External(false) ==> LimitsAgree(db.rows[i.id], queueMax))
    {
      hide VerdictOf;
      SettlesOneRow(db, session, i.(reply := reply), token, lessee);
    }
    VerdictsOfReplies(session, i.payload);
    hide VerdictOf, Buried, CountedDead;
    assert VerdictOf(session, i.payload, i.(reply := Unavailable).reply) == External(false);
  }

  // Only answers and settling times differ.
  predicate SameClaim(a: seq<Item>, b: seq<Item>) {
    |a| == |b| && forall k :: 0 <= k < |a| ==> a[k].(reply := b[k].reply, at := b[k].at) == b[k]
  }

  // Each item's row is leased to this pass.
  predicate LeasedHere(rows: Rows, items: seq<Item>, token: Token, lessee: string) {
    forall k :: 0 <= k < |items| ==> IsFresh(rows, items[k]) && HasLease(rows[items[k].id], token, lessee)
  }

  predicate HasLease(r: Row, token: Token, lessee: string) {
    r.token == Some(token) && r.owner == Some(lessee) && r.leaseExp.Some?
  }

  // The pass counts as dead exactly the rows it buries.
  ghost predicate DeadCountExact(db: Db, session: Session, items: seq<Item>, token: Token, lessee: string,
                                 queueMax: nat) {
    var (db', t) := Pass(db, Tally(0, 0, 0), session, items, token, lessee, queueMax);
    t.dead == InState(db'.rows, items, DeadLetter)
  }

  predicate AllLimitsAgree(rows: Rows, session: Session, items: seq<Item>, queueMax: nat) {
    forall k :: 0 <= k < |items| && items[k].id in rows && Asks(session, items[k].payload) ==>
      LimitsAgree(rows[items[k].id], queueMax)
  }

  lemma {:induction false} AgreeingHasNoExcess(rows: Rows, session: Session, items: seq<Item>, token: Token,
                                               lessee: string, queueMax: nat)
    requires FreshlyClaimed(rows, items) && AllLimitsAgree(rows, session, items, queueMax)
    ensures Excess(rows, session, items, token, lessee, queueMax) == 0
    decreases |items|
  {
    if items != [] {
      assert IsFresh(rows, items[0]);
      VerdictsOfReplies(session, items[0].payload);
      hide VerdictOf, Asks;
      assert forall k :: 0 <= k < |items| - 1 ==> items[1..][k] == items[k + 1];
      AgreeingHasNoExcess(rows, session, items[1..], token, lessee, queueMax);
    }
  }

  // Everything is accepted but the k-th item, which meets an unavailable service while its lease holds.
  function OneUnavailable(rows: Rows, items: seq<Item>, k: nat): seq<Item>
    requires k < |items| && items[k].id in rows && rows[items[k].id].leaseExp.Some?
  {
    seq(|items|, j requires 0 <= j < |items| =>
      if j == k then items[j].(reply := Unavailable, at := rows[items[k].id].leaseExp.value - 1)
      else items[j].(reply := Fine))
  }

  lemma {:induction false} FineHasNoExcess(rows: Rows, session: Session, items: seq<Item>, token: Token, lessee: string,
                                           queueMax: nat)
    requires forall k :: 0 <= k < |items| ==> items[k].reply == Fine
    ensures Excess(rows, session, items, token, lessee, queueMax) == 0
    decreases |items|
  {
    if items != [] {
      VerdictsOfReplies(session, items[0].payload);
      hide VerdictOf;
      FineHasNoExcess(rows, session, items[1..], token, lessee, queueMax);
    }
  }

  // With one refused item the excess is that item's own.
  lemma {:induction false} ExcessOfOne(rows: Rows, session: Session, items: seq<Item>, k: nat, token: Token,
                                       lessee: string, queueMax: nat)
    requires k < |items| && forall j :: 0 <= j < |items| && j != k ==> items[j].reply == Fine
    ensures Excess(rows, session, items, token, lessee, queueMax)
         == ItemExcess(rows, session, items[k], token, lessee, queueMax)
    decreases |items|
  {
    hide VerdictOf;
    if k == 0 {
      FineHasNoExcess(rows, session, items[1..], token, lessee, queueMax);
    } else {
      VerdictsOfReplies(session, items[0].payload);
      ExcessOfOne(rows, session, items[1..], k - 1, token, lessee, queueMax);
    }
  }

  /** `dead_lettered` is the number of rows a pass buries, for all answers and settling
      times, if and only if the row's attempt limit and the queue's agree about the attempt
      count of every claimed row that asks the central service something. */
  lemma PassCountsDeadIff(db: Db, session: Session, items: seq<Item>, token: Token, lessee: string, queueMax: nat)
    requires DistinctIds(items) && LeasedHere(db.rows, items, token, lessee) && CanonicalCameras(db.cameras)
    ensures (forall answered {:trigger SameClaim(items, answered)} :: SameClaim(items, answered) ==>
               DeadCountExact(db, session, answered, token, lessee, queueMax))
       <==> AllLimitsAgree(db.rows, session, items, queueMax)
  {
    forall answered | SameClaim(items, answered)
      ensures DeadCountExact(db, session, answered, token, lessee, queueMax)
         <==> Excess(db.rows, session, answered, token, lessee, queueMax) == 0
      ensures AllLimitsAgree(db.rows, session, items, queueMax) ==>
        DeadCountExact(db, session, answered, token, lessee, queueMax)
    {
      ExactIsNoExcess(db, session, items, answered, token, lessee, queueMax);
    }
    if !AllLimitsAgree(db.rows, session, items, queueMax) {
      var k :| 0 <= k < |items| && items[k].id in db.rows && Asks(session, items[k].payload)
               && !LimitsAgree(db.rows[items[k].id], queueMax);
      assert IsFresh(db.rows, items[k]);
      var answered := OneUnavailable(db.rows, items, k);
      assert SameClaim(items, answered);
      ExcessOfOne(db.rows, session, answered, k, token, lessee, queueMax);
      VerdictsOfReplies(session, items[k].payload);
      hide VerdictOf, DeadCountExact, AllLimitsAgree;
    }
  }

  lemma ExactIsNoExcess(db: Db, session: Session, items: seq<Item>, answered: seq<Item>, token: Token, lessee: string,
                        queueMax: nat)
    requires DistinctIds(items) && LeasedHere(db.rows, items, token, lessee) && CanonicalCameras(db.cameras)
    requires SameClaim(items, answered)
    ensures DeadCountExact(db, session, answered, token, lessee, queueMax)
       <==> Excess(db.rows, session, answered, token, lessee, queueMax) == 0
    ensures AllLimitsAgree(db.rows, session, items, queueMax) ==>
      DeadCountExact(db, session, answered, token, lessee, queueMax)
  {
    forall k | 0 <= k < |answered| ensures IsFresh(db.rows, answered[k]) { assert IsFresh(db.rows, items[k]); }
    PassAccounts(db, Tally(0, 0, 0), session, answered, token, lessee, queueMax);
    if AllLimitsAgree(db.rows, session, items, queueMax) {
      AgreeingHasNoExcess(db.rows, session, answered, token, lessee, queueMax);
    }
    hide Pass, VerdictOf;
  }

  const Motion := Deliver(Event(7, 1, "motion", Json("{}"), None, 0))
  const ThirdAttempt := NewRow(SyncEvents, Motion, EventKey(7), 1, None, None, 8, 0).(
    state := Inflight, token := Some(1), owner := Some("w"), leaseExp := Some(10),
    lastAttempt := Some(0), attempts := 3)

  /** A concrete row, queued under a limit of eight and claimed for the third time by a service
      whose limit is three: an unavailable central service has it counted dead while it waits for a retry. */
  lemma CountedDeadWhileWaiting()
    ensures var session := Session(1, Active);
      var i := Item(20, ThirdAttempt.payload, 3, Unavailable, 5);
      var before := Db(map[20 := ThirdAttempt], map[], map[], Some(session));
      var (db, t) := Pass(before, Tally(0, 0, 0), session, [i], 1, "w", 3);
      t.dead == 1 && 20 in db.rows && db.rows[20].state == RetryWait
  {
    var session := Session(1, Active);
    var i := Item(20, ThirdAttempt.payload, 3, Unavailable, 5);
    var db := Db(map[20 := ThirdAttempt], map[], map[], Some(session));
    assert [i][1..] == [];
    assert VerdictOf(session, i.payload, i.reply) == External(false);
    assert Owned(db.rows, 20, 1, "w", 5);
    SettlesOneRow(db, session, i, 1, "w");
  }

  // ---------------------------------------------------------------------- the object

  predicate Has(items: seq<Item>, q: Id) { exists i :: 0 <= i < |items| && items[i].id == q }

  // An item holds what the claim returned for its row.
  predicate Holds(rows: Rows, i: Item) {
    i.id in rows && i.payload == rows[i.id].payload && i.attempts == rows[i.id].attempts
  }

  // The claimed rows in claim order.
  ghost predicate ListsClaim(rows: Rows, chosen: set<Id>, items: seq<Item>) {
    && (forall i :: 0 <= i < |items| ==> items[i].id in chosen && Holds(rows, items[i]))
    && (forall i, j :: 0 <= i < j < |items| ==> items[i].id != items[j].id && Precedes(rows, items[i].id, items[j].id))
    && (forall q {:trigger Has(items, q)} :: q in chosen ==> Has(items, q))
  }

  lemma HasMore(items: seq<Item>, i: Item)
    ensures Has(items + [i], i.id)
    ensures forall q {:trigger Has(items + [i], q)} :: Has(items, q) ==> Has(items + [i], q)
  {
    assert (items + [i])[|items|] == i;
    forall q | Has(items, q) ensures Has(items + [i], q) {
      var k :| 0 <= k < |items| && items[k].id == q;
      assert (items + [i])[k].id == q;
    }
  }

  lemma ClaimIsFresh(rows: Rows, chosen: set<Id>, filter: Option<Key>, limit: nat, token: Token, lessee: string,
                     expires: Time, now: Time, items: seq<Item>)
    requires ClaimSet(rows, chosen, now, filter, limit)
    requires ListsClaim(Lease(rows, chosen, token, lessee, expires, now), chosen, items)
    ensures FreshlyClaimed(Lease(rows, chosen, token, lessee, expires, now), items) && DistinctIds(items)
    ensures LeasedHere(Lease(rows, chosen, token, lessee, expires, now), items, token, lessee)
  {
    forall i | 0 <= i < |items| ensures Claimable(rows, items[i].id, now, filter) { }
  }

  // items are the first `limit` claimable rows, leased with this token; `claimed` is the database after that.
  ghost predicate ClaimRan(db: Db, claimed: Db, chosen: set<Id>, items: seq<Item>, filter: Option<Key>, limit: nat,
                           token: Token, lessee: string, expires: Time, now: Time) {
    && ClaimSet(Expire(db.rows, now), chosen, now, filter, limit)
    && claimed == db.(rows := Lease(Expire(db.rows, now), chosen, token, lessee, expires, now))
    && ListsClaim(claimed.rows, chosen, items)
  }

  lemma ClaimRanIsFresh(db: Db, claimed: Db, chosen: set<Id>, items: seq<Item>, filter: Option<Key>, limit: nat,
                        token: Token, lessee: string, expires: Time, now: Time)
    requires ClaimRan(db, claimed, chosen, items, filter, limit, token, lessee, expires, now)
    ensures FreshlyClaimed(claimed.rows, items) && DistinctIds(items) && LeasedHere(claimed.rows, items, token, lessee)
    ensures claimed.cameras == db.cameras
  {
    ClaimIsFresh(Expire(db.rows, now), chosen, filter, limit, token, lessee, expires, now, items);
  }

  function FilterOf(session: Session): Option<Key> {
    if session.status == RevocationPending then Some(RevokeKey) else None
  }

  // While a revocation is pending nothing else is claimed; otherwise any due row may be.
  lemma PendingClaimsRevocations(db: Db, claimed: Db, chosen: set<Id>, items: seq<Item>, session: Session, limit: nat,
                                 token: Token, lessee: string, expires: Time, now: Time)
    requires ClaimRan(db, claimed, chosen, items, FilterOf(session), limit, token, lessee, expires, now)
    ensures session.status == RevocationPending ==>
      forall i :: 0 <= i < |items| ==> items[i].id in db.rows && db.rows[items[i].id].key == RevokeKey
    ensures session.status != RevocationPending ==> FirstClaims(db.rows, chosen, limit, None, now)
  {
    ClaimTakesEffect(db.rows, chosen, lessee, limit, FilterOf(session), token, expires - now, now);
    hide ClaimSet, Expire, Lease, ClaimEffect;
    forall i | 0 <= i < |items| && session.status == RevocationPending
      ensures items[i].id in db.rows && db.rows[items[i].id].key == RevokeKey
    {
      assert MayClaim(db.rows, items[i].id, now, FilterOf(session));
    }
  }

  lemma ChosenAreRows(rows: Rows, chosen: set<Id>, filter: Option<Key>, limit: nat, now: Time)
    requires ClaimSet(rows, chosen, now, filter, limit)
    ensures chosen <= rows.Keys
  {
    forall q | q in chosen ensures q in rows { assert Claimable(rows, q, now, filter); }
  }

  // What the pass over a fresh claim leaves and counts.
  lemma ClaimedPass(db: Db, claimed: Db, chosen: set<Id>, items: seq<Item>, session: Session, limit: nat, token: Token,
                    lessee: string, expires: Time, now: Time, queueMax: nat)
    requires ClaimRan(db, claimed, chosen, items, FilterOf(session), limit, token, lessee, expires, now)
    requires CanonicalCameras(db.cameras)
    ensures CanonicalCameras(claimed.cameras)
    ensures var (settled, t) := Pass(claimed, Tally(0, 0, 0), session, items, token, lessee, queueMax);
      && Accounts(Tally(0, 0, 0), t, settled.rows, items, Excess(claimed.rows, session, items, token, lessee, queueMax))
      && (AllLimitsAgree(claimed.rows, session, items, queueMax) ==> t.dead == InState(settled.rows, items, DeadLetter))
      && t.failed == Refusals(claimed.rows, session, items, token, lessee)
  {
    ClaimRanIsFresh(db, claimed, chosen, items, FilterOf(session), limit, token, lessee, expires, now);
    PassAccounts(claimed, Tally(0, 0, 0), session, items, token, lessee, queueMax);
    FailedAreRefusals(claimed, Tally(0, 0, 0), session, items, token, lessee, queueMax);
    ExactIsNoExcess(claimed, session, items, items, token, lessee, queueMax);
    hide ClaimRan, FreshlyClaimed, LeasedHere, DistinctIds, Accounts, AllLimitsAgree, Pass, Excess, Refusals;
  }

  class SyncService {
    const store: Store
    const queueMax: nat

    constructor (store: Store, queueMax: nat)
      ensures this.store == store && this.queueMax == queueMax
    {
      this.store, this.queueMax := store, queueMax;
    }

    method ListItems(chosen: set<Id>, ask: Id -> Reply, clock: Id -> Time) returns (items: seq<Item>)
      requires chosen <= store.rows.Keys
      ensures ListsClaim(store.rows, chosen, items)
      ensures forall i :: 0 <= i < |items| ==> items[i].reply == ask(items[i].id) && items[i].at == clock(items[i].id)
    {
      items := [];
      var left := chosen;
      while left != {}
        invariant left <= chosen
        invariant forall q {:trigger Has(items, q)} :: q in chosen - left ==> Has(items, q)
        invariant forall i :: 0 <= i < |items| ==> items[i].id in chosen - left && Holds(store.rows, items[i])
        invariant forall i :: 0 <= i < |items| ==>
          items[i].reply == ask(items[i].id) && items[i].at == clock(items[i].id)
        invariant forall i, j :: 0 <= i < j < |items| ==>
          items[i].id != items[j].id && Precedes(store.rows, items[i].id, items[j].id)
        invariant forall i, q :: 0 <= i < |items| && q in left ==> Precedes(store.rows, items[i].id, q)
      {
        var m := FindFirst(store.rows, left, true);
        ghost var before := items;
        items := items + [Item(m, store.rows[m].payload, store.rows[m].attempts, ask(m), clock(m))];
        HasMore(before, items[|before|]);
        left := left - {m};
      }
    }

    // Settle one item with its answer; ok: the lease was still held.
    method Settle(session: Session, i: Item, token: Token, lessee: string) returns (ok: bool)
      requires store.Valid() && CanonicalCameras(store.cameras)
      modifies store
      ensures store.Valid() && store.View() == Settled(old(store.View()), session, i, token, lessee)
      ensures CanonicalCameras(store.cameras) && ok == Owned(old(store.rows), i.id, token, lessee, i.at)
    {
      hide HeldBy, IdentityFree, CompleteEffect, CompleteCameraEffect, CompleteRevocationEffect, FailEffect,
        VerdictOf;
      match VerdictOf(session, i.payload, i.reply) {
        case Finish => ok := store.Complete(i.id, token, lessee, i.at);
        case FinishCamera(local) => ok := store.CompleteCamera(i.id, token, lessee, local, local, i.at);
        case FinishRevocation(g) => ok := store.CompleteRevocation(i.id, token, lessee, g, i.at);
        case Contract => ok := store.Fail(i.id, token, lessee, true, i.at);
        case External(permanent) => ok := store.Fail(i.id, token, lessee, permanent, i.at);
      }
    }

    method SettleAll(session: Session, items: seq<Item>, token: Token, lessee: string) returns (t: Tally)
      requires store.Valid() && CanonicalCameras(store.cameras)
      modifies store
      ensures store.Valid()
      ensures (store.View(), t) == Pass(old(store.View()), Tally(0, 0, 0), session, items, token, lessee, queueMax)
    {
      t := Tally(0, 0, 0);
      var k := 0;
      while k < |items|
        invariant 0 <= k <= |items| && store.Valid() && CanonicalCameras(store.cameras)
        invariant Pass(old(store.View()), Tally(0, 0, 0), session, items, token, lessee, queueMax)
               == Pass(store.View(), t, session, items[k..], token, lessee, queueMax)
      {
        assert items[k..][0] == items[k] && items[k..][1..] == items[k + 1..];
        var ok := Settle(session, items[k], token, lessee);
        t := Counted(t, VerdictOf(session, items[k].payload, items[k].reply), ok, items[k].attempts, queueMax);
        k := k + 1;
      }
      assert items[k..] == [];
    }

    method ClaimItems(lessee: string, limit: nat, filter: Option<Key>, token: Token, lease: Time, now: Time,
                      ask: Id -> Reply, clock: Id -> Time)
      returns (items: seq<Item>, chosen: set<Id>)
      requires store.Valid()
      modifies store`rows
      ensures store.Valid()
      ensures ClaimRan(old(store.View()), store.View(), chosen, items, filter, limit, token, lessee, now + lease, now)
      ensures forall i :: 0 <= i < |items| ==> items[i].reply == ask(items[i].id) && items[i].at == clock(items[i].id)
    {
      ghost var before := Expire(store.rows, now);
      hide ClaimSet, ListsClaim, Expire, Lease;
      chosen := store.Claim(lessee, limit, filter, token, lease, now);
      ChosenAreRows(before, chosen, filter, limit, now);
      items := ListItems(chosen, ask, clock);
    }

    method ClaimAndSettle(session: Session, lessee: string, limit: nat, token: Token, lease: Time, now: Time,
                          ask: Id -> Reply, clock: Id -> Time)
      returns (items: seq<Item>, t: Tally, chosen: set<Id>, ghost leased: Db)
      requires store.Valid() && CanonicalCameras(store.cameras)
      modifies store
      ensures store.Valid()
      ensures ClaimRan(old(store.View()), leased, chosen, items, FilterOf(session), limit, token, lessee, now + lease,
                       now)
      ensures forall i :: 0 <= i < |items| ==> items[i].reply == ask(items[i].id) && items[i].at == clock(items[i].id)
      ensures (store.View(), t) == Pass(leased, Tally(0, 0, 0), session, items, token, lessee, queueMax)
      ensures Accounts(Tally(0, 0, 0), t, store.rows, items,
                       Excess(leased.rows, session, items, token, lessee, queueMax))
      ensures AllLimitsAgree(leased.rows, session, items, queueMax) ==> t.dead == InState(store.rows, items, DeadLetter)
      ensures t.failed == Refusals(leased.rows, session, items, token, lessee)
    {
      ghost var before := store.View();
      items, chosen := ClaimItems(lessee, limit, FilterOf(session), token, lease, now, ask, clock);
      leased := store.View();
      ClaimedPass(before, leased, chosen, items, session, limit, token, lessee, now + lease, now, queueMax);
      hide ClaimRan, Accounts, AllLimitsAgree, Pass, Excess, Refusals;
      t := SettleAll(session, items, token, lessee);
    }

    /** flush_once: with a revocation pending only the revocation is claimed.  The
        returned counters account for the state every claimed row was left in. */
    method FlushOnce(lessee: string, limit: nat, token: Token, lease: Time, now: Time,
                     ask: Id -> Reply, clock: Id -> Time, closedBefore: Time, deadBefore: Time)
      returns (claimed: nat, t: Tally, ghost chosen: set<Id>, ghost items: seq<Item>, ghost leased: Db,
               ghost settled: Db)
      requires store.Valid() && CanonicalCameras(store.cameras)
      modifies store
      ensures store.Valid() && claimed == |items|
      ensures old(store.session).None? ==> store.View() == old(store.View()) && t == Tally(0, 0, 0) && items == []
      ensures old(store.session).Some? ==>
        var session := old(store.session).value;
        && ClaimRan(old(store.View()), leased, chosen, items, FilterOf(session), limit, token, lessee, now + lease, now)
        && (forall i :: 0 <= i < |items| ==> items[i].reply == ask(items[i].id) && items[i].at == clock(items[i].id))
        && (settled, t) == Pass(leased, Tally(0, 0, 0), session, items, token, lessee, queueMax)
        && (exists c :: CandidateList(settled.rows, c, closedBefore, deadBefore)
                        && store.View() == settled.(rows := PurgeAll(settled.rows, c, now)))
        && Accounts(Tally(0, 0, 0), t, settled.rows, items,
                    Excess(leased.rows, session, items, token, lessee, queueMax))
        && (AllLimitsAgree(leased.rows, session, items, queueMax) ==>
              t.dead == InState(settled.rows, items, DeadLetter))
        && t.failed == Refusals(leased.rows, session, items, token, lessee)
    {
      hide ClaimRan, Accounts, AllLimitsAgree, Pass, Excess, Refusals, InState, CandidateList, PurgeAll, PurgeEffect,
        OldRows, CanonicalCameras;
      claimed, t, chosen, items, leased, settled := 0, Tally(0, 0, 0), {}, [], store.View(), store.View();
      if store.session.None? { return; }
      var list;
      list, t, chosen, leased := ClaimAndSettle(store.session.value, lessee, limit, token, lease, now, ask, clock);
      items, claimed, settled := list, |list|, store.View();
      ghost var candidates;
      var removed;
      removed, candidates := store.PurgeRetained(closedBefore, deadBefore, now);
    }
  }
}
