/**
 What an observer of the outbox remembers from one transaction to the next, and
 what every run keeps of it.  The log is specification state only: no operation
 reads it.
 */
module SyncHistory {
  import opened Prelude
  import opened CentralTables
  import opened SyncModel
  import opened SyncInvariant
  import opened SyncPurge

  datatype Log = Log(
    ids: set<Id>,                              // row identifiers ever used
    cameras: set<Id>,                          // camera identifiers ever used
    tokens: set<Token>,                        // claim tokens ever stored
    closed: set<Id>,                           // rows that have been succeeded or cancelled
    succeeded: set<Id>,                        // rows that have been succeeded
    pred: map<Id, Option<Id>>,                 // the predecessor a row was created with
    dep: map<Id, Option<Id>>,                  // the last dependency a row was given
    sent: map<Id, (Endpoint, Payload)>,        // what a row held at its first lease
    leases: map<Id, seq<Token>>,               // the tokens a row was leased with, in order
    successes: map<Id, nat>)                   // how often a row became succeeded

  const EmptyLog := Log({}, {}, {}, {}, {}, map[], map[], map[], map[], map[])

  function LeasesOf(log: Log, q: Id): seq<Token> { if q in log.leases then log.leases[q] else [] }

  function SuccessesOf(log: Log, q: Id): nat { if q in log.successes then log.successes[q] else 0 }

  function NextLeases(log: Log, q: Id, r: Row): seq<Token> {
    var prior := LeasesOf(log, q);
    if r.token.Some? && (prior == [] || prior[|prior| - 1] != r.token.value) then prior + [r.token.value] else prior
  }

  function LeasesAfter(log: Log, rows: Rows): map<Id, seq<Token>> {
    log.leases + map q | q in rows :: NextLeases(log, q, rows[q])
  }

  function FirstPred(pred: map<Id, Option<Id>>, rows: Rows): map<Id, Option<Id>> {
    pred + map q | q in rows && q !in pred :: rows[q].pred
  }

  function LastDep(dep: map<Id, Option<Id>>, rows: Rows): map<Id, Option<Id>> {
    dep + map q | q in rows && (q !in dep || rows[q].dep.Some?) :: rows[q].dep
  }

  predicate BecameSucceeded(before: Rows, rows: Rows, q: Id)
    requires q in rows
  {
    rows[q].state == Succeeded && (q !in before || before[q].state != Succeeded)
  }

  function Observe(log: Log, before: Rows, rows: Rows, cameras: map<Id, Camera>): Log {
    Log(
      log.ids + rows.Keys,
      log.cameras + cameras.Keys + (set q | q in rows && rows[q].key.CameraKey? :: rows[q].key.camera),
      log.tokens + (set q | q in rows && rows[q].token.Some? :: rows[q].token.value),
      log.closed + (set q | q in rows && Closed(rows[q])),
      log.succeeded + (set q | q in rows && rows[q].state == Succeeded),
      FirstPred(log.pred, rows),
      LastDep(log.dep, rows),
      log.sent + (map q | q in rows && q !in log.sent && Leased(rows[q]) :: (rows[q].endpoint, rows[q].payload)),
      LeasesAfter(log, rows),
      log.successes + (map q | q in rows ::
        SuccessesOf(log, q) + if BecameSucceeded(before, rows, q) then 1 else 0))
  }

  datatype World = World(db: Db, log: Log)

  const Empty := World(Db(map[], map[], map[], None), EmptyLog)

  // ---------------------------------------------------------------- what is remembered

  ghost predicate Known(db: Db, log: Log) {
    && db.rows.Keys <= log.ids && db.cameras.Keys <= log.cameras
    && (forall q :: q in db.rows && db.rows[q].key.CameraKey? ==> db.rows[q].key.camera in log.cameras)
    && log.pred.Keys <= log.ids && log.dep.Keys <= log.ids && log.sent.Keys <= log.ids
    && log.leases.Keys <= log.ids && log.successes.Keys <= log.ids
  }

  ghost predicate Ever(rows: Rows, log: Log) {
    forall q :: q in rows ==>
      (Closed(rows[q]) ==> q in log.closed) && (rows[q].state == Succeeded ==> q in log.succeeded)
  }

  // A row's endpoint and payload are frozen by its first lease.
  ghost predicate Frozen(rows: Rows, log: Log) {
    forall q :: q in rows ==>
      (Leased(rows[q]) <==> q in log.sent) &&
      (q in log.sent ==> log.sent[q] == (rows[q].endpoint, rows[q].payload))
  }

  ghost predicate NoRepeats(l: seq<Token>) { forall i, j :: 0 <= i < j < |l| ==> l[i] != l[j] }

  ghost predicate Within(l: seq<Token>, tokens: set<Token>) { forall t :: t in l ==> t in tokens }

  ghost predicate LastLease(log: Log, q: Id, token: Option<Token>) {
    token.Some? ==> var l := LeasesOf(log, q); l != [] && l[|l| - 1] == token.value
  }

  // A stored token is the row's most recent lease, and no token leases a row twice.
  ghost predicate Fenced(rows: Rows, log: Log) {
    && (forall q :: q in rows ==> LastLease(log, q, rows[q].token))
    && (forall q :: q in log.leases ==> NoRepeats(log.leases[q]) && Within(log.leases[q], log.tokens))
  }

  ghost predicate SucceededOnce(rows: Rows, log: Log) {
    forall q :: SuccessesOf(log, q) <= 1 && (SuccessesOf(log, q) == 1 && q in rows ==> Closed(rows[q]))
  }

  ghost predicate WasClosed(log: Log, p: Option<Id>) { p.None? || p.value in log.closed }

  ghost predicate HadSucceeded(log: Log, d: Option<Id>) { d.None? || d.value in log.succeeded }

  // No row passes a gate that was never opened: it is leased, or left with no
  // edge to wait for, only after its predecessor closed and its camera row succeeded.
  ghost predicate Gated(r: Row, pred: Option<Id>, dep: Option<Id>, log: Log) {
    && (r.pred.Some? ==> pred == r.pred)
    && (r.dep.Some? ==> dep == r.dep)
    && (Leased(r) || (r.pred.None? && !Closed(r)) ==> WasClosed(log, pred))
    && (Leased(r) || (r.dep.None? && !Closed(r)) ==> HadSucceeded(log, dep))
  }

  ghost predicate Gates(rows: Rows, log: Log) {
    forall q :: q in rows ==>
      && q in log.pred && q in log.dep
      && (rows[q].key != RevokeKey ==> Gated(rows[q], log.pred[q], log.dep[q], log))
  }

  ghost predicate Remembered(db: Db, log: Log) {
    && Known(db, log) && Ever(db.rows, log) && Frozen(db.rows, log)
    && Fenced(db.rows, log) && SucceededOnce(db.rows, log)
  }

  // ------------------------------------------------------------ one transaction's change

  ghost predicate RowEvolves(r: Row, r': Row, issued: Option<Token>) {
    && (Leased(r) ==> Leased(r') && r'.endpoint == r.endpoint && r'.payload == r.payload)
    && (Closed(r) ==> Closed(r'))
    && (r'.state == Succeeded ==> r.state == Succeeded || r.state == Inflight)
    && (r'.token.Some? ==> r'.token == r.token || r'.token == issued)
    && r'.key == r.key
  }

  ghost predicate Evolves(rows: Rows, rows': Rows, issued: Option<Token>, added: Option<Id>) {
    forall q :: q in rows' ==>
      if q in rows then RowEvolves(rows[q], rows'[q], issued)
      else Some(q) == added && !Closed(rows'[q]) && (rows'[q].token.Some? ==> rows'[q].token == issued)
  }

  lemma InPlaceEvolves(rows: Rows, rows': Rows, issued: Option<Token>)
    requires InPlace(rows, rows', issued)
    ensures Evolves(rows, rows', issued, None)
  {
    forall q | q in rows'
      ensures RowEvolves(rows[q], rows'[q], issued)
    {
      assert RowStep(rows, rows[q], rows'[q], issued);
    }
  }

  lemma InsertEvolves(rows: Rows, rows': Rows, key: Key, newId: Id)
    requires IsInsert(rows, rows', key, newId)
    ensures Evolves(rows, rows', None, Some(newId))
  {
  }

  lemma PurgeOneEvolves(rows: Rows, id: Id, state: State, now: Time)
    ensures Evolves(rows, PurgeOne(rows, id, state, now), None, None)
  {
  }

  lemma {:induction false} PurgeEvolves(rows: Rows, candidates: seq<(Id, State)>, now: Time)
    ensures Evolves(rows, PurgeAll(rows, candidates, now), None, None)
  {
    if candidates != [] {
      var n := |candidates| - 1;
      var before := PurgeAll(rows, candidates[..n], now);
      PurgeEvolves(rows, candidates[..n], now);
      PurgeOneEvolves(before, candidates[n].0, candidates[n].1, now);
    }
  }

  ghost predicate FreshFor(log: Log, issued: Option<Token>, added: Option<Id>) {
    (issued.Some? ==> issued.value !in log.tokens) && (added.Some? ==> added.value !in log.ids)
  }

  lemma ObserveKnown(db: Db, log: Log, db': Db)
    requires Known(db, log)
    ensures Known(db', Observe(log, db.rows, db'.rows, db'.cameras))
    ensures Ever(db'.rows, Observe(log, db.rows, db'.rows, db'.cameras))
  {
    var log' := Observe(log, db.rows, db'.rows, db'.cameras);
    forall q | q in db'.rows && db'.rows[q].key.CameraKey?
      ensures db'.rows[q].key.camera in log'.cameras
    {
    }
  }

  lemma ObserveFrozen(db: Db, log: Log, db': Db, issued: Option<Token>, added: Option<Id>)
    requires Known(db, log) && Frozen(db.rows, log)
    requires Evolves(db.rows, db'.rows, issued, added) && FreshFor(log, issued, added)
    ensures Frozen(db'.rows, Observe(log, db.rows, db'.rows, db'.cameras))
  {
    var log' := Observe(log, db.rows, db'.rows, db'.cameras);
    forall q | q in db'.rows
      ensures Leased(db'.rows[q]) <==> q in log'.sent
      ensures q in log'.sent ==> log'.sent[q] == (db'.rows[q].endpoint, db'.rows[q].payload)
    {
      if q in db.rows { assert RowEvolves(db.rows[q], db'.rows[q], issued); }
    }
  }

  // The new log's lease record of q, in terms of the previous log and q's row.
  ghost predicate RecordsLease(log: Log, rows: Rows, log': Log, q: Id) {
    if q in rows
    then q in log'.leases && log'.leases[q] == NextLeases(log, q, rows[q])
         && (rows[q].token.Some? ==> rows[q].token.value in log'.tokens)
    else q in log'.leases ==> q in log.leases && log'.leases[q] == log.leases[q]
  }

  lemma FencedStep(rows: Rows, log: Log, rows': Rows, log': Log, issued: Option<Token>, added: Option<Id>, q: Id)
    requires Fenced(rows, log) && Evolves(rows, rows', issued, added) && FreshFor(log, issued, added)
    requires RecordsLease(log, rows', log', q) && log.tokens <= log'.tokens
    ensures q in log'.leases ==> NoRepeats(log'.leases[q]) && Within(log'.leases[q], log'.tokens)
    ensures q in rows' ==> LastLease(log', q, rows'[q].token)
  {
    if q in rows' {
      LeasesGrow(rows, log, q, rows', issued, added, log'.tokens);
    }
  }

  lemma ObserveFenced(db: Db, log: Log, db': Db, issued: Option<Token>, added: Option<Id>)
    requires Fenced(db.rows, log)
    requires Evolves(db.rows, db'.rows, issued, added) && FreshFor(log, issued, added)
    ensures Fenced(db'.rows, Observe(log, db.rows, db'.rows, db'.cameras))
  {
    var log' := Observe(log, db.rows, db'.rows, db'.cameras);
    forall q
      ensures q in log'.leases ==> NoRepeats(log'.leases[q]) && Within(log'.leases[q], log'.tokens)
      ensures q in db'.rows ==> LastLease(log', q, db'.rows[q].token)
    {
      FencedStep(db.rows, log, db'.rows, log', issued, added, q);
    }
  }

  // A row's next lease record has no repetition: a token it gains was never stored before.
  lemma LeasesGrow(rows: Rows, log: Log, q: Id, rows': Rows, issued: Option<Token>, added: Option<Id>,
                   tokens: set<Token>)
    requires Fenced(rows, log) && Evolves(rows, rows', issued, added) && FreshFor(log, issued, added) && q in rows'
    requires log.tokens <= tokens && (rows'[q].token.Some? ==> rows'[q].token.value in tokens)
    ensures NoRepeats(NextLeases(log, q, rows'[q])) && Within(NextLeases(log, q, rows'[q]), tokens)
  {
    var prior := LeasesOf(log, q);
    var l := NextLeases(log, q, rows'[q]);
    if l != prior {
      assert l == prior + [rows'[q].token.value];
      assert rows'[q].token == issued by {
        if q in rows { assert RowEvolves(rows[q], rows'[q], issued); }
      }
    }
  }

  lemma ObservedSuccess(log: Log, before: Rows, rows: Rows, cameras: map<Id, Camera>, q: Id)
    ensures SuccessesOf(Observe(log, before, rows, cameras), q) == SuccessesOf(log, q) +
              if q in rows && BecameSucceeded(before, rows, q) then 1 else 0
  {
  }

  lemma ObserveOnce(db: Db, log: Log, db': Db, issued: Option<Token>, added: Option<Id>)
    requires Known(db, log) && SucceededOnce(db.rows, log)
    requires Evolves(db.rows, db'.rows, issued, added) && FreshFor(log, issued, added)
    ensures SucceededOnce(db'.rows, Observe(log, db.rows, db'.rows, db'.cameras))
  {
    hide Observe;
    var log' := Observe(log, db.rows, db'.rows, db'.cameras);
    forall q: Id
      ensures SuccessesOf(log', q) <= 1
      ensures SuccessesOf(log', q) == 1 && q in db'.rows ==> Closed(db'.rows[q])
    {
      ObservedSuccess(log, db.rows, db'.rows, db'.cameras, q);
      assert SuccessesOf(log, q) <= 1;
      if q in db'.rows && q in db.rows { assert RowEvolves(db.rows[q], db'.rows[q], issued); }
    }
  }

  lemma ObserveKeeps(db: Db, log: Log, db': Db, issued: Option<Token>, added: Option<Id>)
    requires Remembered(db, log)
    requires Evolves(db.rows, db'.rows, issued, added) && FreshFor(log, issued, added)
    ensures Remembered(db', Observe(log, db.rows, db'.rows, db'.cameras))
  {
    ObserveKnown(db, log, db');
    ObserveFrozen(db, log, db', issued, added);
    ObserveFenced(db, log, db', issued, added);
    ObserveOnce(db, log, db', issued, added);
  }

  // -------------------------------------------------------------------------- gates

  // What an observation does to the edges and ever-sets of q's row.
  lemma ObservedEdges(log: Log, before: Rows, rows: Rows, cameras: map<Id, Camera>, q: Id)
    ensures var log' := Observe(log, before, rows, cameras);
            && log.closed <= log'.closed && log.succeeded <= log'.succeeded
            && (q in rows ==>
                 && q in log'.pred && log'.pred[q] == (if q in log.pred then log.pred[q] else rows[q].pred)
                 && q in log'.dep
                 && log'.dep[q] == (if q in log.dep && rows[q].dep.None? then log.dep[q] else rows[q].dep))
  {
    assert Observe(log, before, rows, cameras).pred == FirstPred(log.pred, rows);
    assert Observe(log, before, rows, cameras).dep == LastDep(log.dep, rows);
  }

  lemma GatesInPlace(rows: Rows, rows': Rows, issued: Option<Token>, log: Log, cameras: map<Id, Camera>)
    requires Gates(rows, log) && Ever(rows, log) && InPlace(rows, rows', issued)
    ensures Gates(rows', Observe(log, rows, rows', cameras))
  {
    hide Observe;
    var log' := Observe(log, rows, rows', cameras);
    forall q | q in rows'
      ensures q in log'.pred && q in log'.dep
      ensures rows'[q].key != RevokeKey ==> Gated(rows'[q], log'.pred[q], log'.dep[q], log')
    {
      ObservedEdges(log, rows, rows', cameras, q);
      if rows[q].key != RevokeKey { GatedStep(rows, q, rows'[q], issued, log, log'); }
    }
  }

  lemma GatedStep(rows: Rows, q: Id, r': Row, issued: Option<Token>, log: Log, log': Log)
    requires q in rows && RowStep(rows, rows[q], r', issued) && Ever(rows, log) && rows[q].key != RevokeKey
    requires q in log.pred && q in log.dep && Gated(rows[q], log.pred[q], log.dep[q], log)
    requires log.closed <= log'.closed && log.succeeded <= log'.succeeded
    ensures Gated(r', log.pred[q], if r'.dep.Some? then r'.dep else log.dep[q], log')
  {
  }

  lemma GatesInsert(rows: Rows, rows': Rows, key: Key, newId: Id, log: Log, cameras: map<Id, Camera>)
    requires Gates(rows, log) && IsInsert(rows, rows', key, newId) && newId !in log.pred && newId !in log.dep
    ensures Gates(rows', Observe(log, rows, rows', cameras))
  {
    hide Observe;
    var log' := Observe(log, rows, rows', cameras);
    forall q | q in rows'
      ensures q in log'.pred && q in log'.dep
      ensures rows'[q].key != RevokeKey ==> Gated(rows'[q], log'.pred[q], log'.dep[q], log')
    {
      ObservedEdges(log, rows, rows', cameras, q);
      if q != newId { assert rows'[q] == rows[q]; }
    }
  }

  // What the candidate's snapshot state says about its past.
  ghost predicate SnapshotKnown(log: Log, id: Id, state: State) {
    (state == Succeeded || state == Cancelled ==> id in log.closed) && (state == Succeeded ==> id in log.succeeded)
  }

  lemma GatesPurgeOne(rows: Rows, id: Id, state: State, now: Time, log: Log)
    requires Linked(rows) && Gates(rows, log) && SnapshotKnown(log, id, state)
    requires state == Succeeded || state == Cancelled || state == DeadLetter
    ensures Gates(PurgeOne(rows, id, state, now), log)
  {
    var rows' := PurgeOne(rows, id, state, now);
    forall q | q in rows' && rows'[q].key != RevokeKey
      ensures Gated(rows'[q], log.pred[q], log.dep[q], log)
    {
      assert RowOk(rows, q) && Gated(rows[q], log.pred[q], log.dep[q], log);
      if Edge(rows, q, id) {
        var path := [q, id];
        assert IsPath(rows, path) && path[0] == q && path[|path| - 1] == id;
        assert Reaches(rows, q, id);
      }
    }
  }

  lemma {:induction false} GatesPurge(rows: Rows, candidates: seq<(Id, State)>, now: Time, log: Log)
    requires Shape(rows) && Gates(rows, log)
    requires forall i :: 0 <= i < |candidates| ==>
      SnapshotKnown(log, candidates[i].0, candidates[i].1) && candidates[i].1 in {Succeeded, Cancelled, DeadLetter}
    ensures Gates(PurgeAll(rows, candidates, now), log)
  {
    if candidates != [] {
      var n := |candidates| - 1;
      GatesPurge(rows, candidates[..n], now, log);
      PurgeKeepsShape(rows, candidates[..n], now);
      GatesPurgeOne(PurgeAll(rows, candidates[..n], now), candidates[n].0, candidates[n].1, now, log);
    }
  }

  lemma GatesObserved(rows: Rows, before: Rows, log: Log, cameras: map<Id, Camera>)
    requires Gates(rows, log)
    ensures Gates(rows, Observe(log, before, rows, cameras))
  {
    hide Observe;
    var log' := Observe(log, before, rows, cameras);
    forall q | q in rows
      ensures q in log'.pred && q in log'.dep
      ensures rows[q].key != RevokeKey ==> Gated(rows[q], log'.pred[q], log'.dep[q], log')
    {
      ObservedEdges(log, before, rows, cameras, q);
      assert rows[q].key != RevokeKey ==> Gated(rows[q], log.pred[q], log.dep[q], log);
    }
  }
}
