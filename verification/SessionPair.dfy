/**
 One user's session and refresh keys in Redis.  Every Lua script and the login
 transaction is one atomic step; a key past its expiry reads as absent.
 */
module SessionPair {
  import opened Prelude

  type Sid = nat
  type Jti = nat
  type Hash = nat    // token_hash, injective on the tokens issued

  datatype SessionData = SessionData(
    sid: Sid, tokenHash: Hash, license: nat, validFrom: int, licenseExpires: int,
    sessionExpires: int, refreshExpires: int)

  datatype RefreshData = RefreshData(tokenHash: Hash, jti: Jti, sid: Sid, refreshExpires: int)

  datatype Key<T> = Key(data: T, expireAt: int)

  datatype Redis = Redis(session: Option<Key<SessionData>>, refresh: Option<Key<RefreshData>>, now: int)

  // GET: a key is there until its expiry time.
  function Get<T>(k: Option<Key<T>>, now: int): Option<T> {
    if k.Some? && now < k.value.expireAt then Some(k.value.data) else None
  }

  predicate BothLive(r: Redis) { Get(r.session, r.now).Some? && Get(r.refresh, r.now).Some? }

  // ------------------------------------------------------------------------ scripts

  // activate_session
  function Activated(r: Redis, s: SessionData, f: RefreshData, sessionAt: int, refreshAt: int): Redis {
    r.(session := Some(Key(s, sessionAt)), refresh := Some(Key(f, refreshAt)))
  }

  // ROTATE_REFRESH_LUA: the new keys and whether the token was exchanged
  function Rotated(r: Redis, hash: Hash, jti: Jti, sid: Sid, replacement: RefreshData): (Redis, bool) {
    if !BothLive(r) then (r, false)
    else
      var f := r.refresh.value.data;
      var s := r.session.value.data;
      if f.tokenHash != hash || f.jti != jti || f.sid != sid || s.sid != sid || replacement.sid != sid then (r, false)
      else
        var refreshAt := Min(replacement.refreshExpires, s.licenseExpires);
        var sessionAt := Min(s.sessionExpires, s.licenseExpires);
        if refreshAt <= r.now || sessionAt <= r.now then (r, false)
        else
          (r.(session := Some(Key(s.(refreshExpires := replacement.refreshExpires), sessionAt)),
              refresh := Some(Key(replacement, refreshAt))), true)
  }

  // DELETE_IF_SID_LUA
  function DeletedIfSid(r: Redis, sid: Sid): (Redis, bool) {
    match Get(r.session, r.now)
    case None => (r.(refresh := None), true)
    case Some(s) => if s.sid != sid then (r, false) else (r.(session := None, refresh := None), true)
  }

  function DeletedBoth(r: Redis): Redis { r.(session := None, refresh := None) }

  // RECONCILE_LUA; no scope is the empty sid
  function Reconciled(r: Redis, scope: Option<Sid>, license: nat, validFrom: int, expires: int): (Redis, bool) {
    if !BothLive(r) then (DeletedBoth(r), false)
    else
      var s := r.session.value.data;
      var f := r.refresh.value.data;
      if s.sid != f.sid || (scope.Some? && s.sid != scope.value) then (DeletedBoth(r), false)
      else if validFrom > r.now || expires <= r.now then (r, false)
      else
        var sessionAt := Min(s.sessionExpires, expires);
        var refreshAt := Min(f.refreshExpires, expires);
        if sessionAt <= r.now || refreshAt <= r.now then (DeletedBoth(r), false)
        else
          var s' := s.(license := license, validFrom := validFrom, licenseExpires := expires,
                       refreshExpires := f.refreshExpires);
          (r.(session := Some(Key(s', sessionAt)), refresh := Some(Key(f, refreshAt))), true)
  }

  datatype Expiries = Bounded(session: int, refresh: int) | Refused

  // reconciliation_expiries
  function ReconciliationExpiries(s: SessionData, f: RefreshData, validFrom: int, expires: int, now: int): Expiries {
    if validFrom > now || expires <= now then Refused
    else if s.sid != f.sid then Refused
    else
      var sessionAt := Min(s.sessionExpires, expires);
      var refreshAt := Min(f.refreshExpires, expires);
      if sessionAt <= now || refreshAt <= now then Refused else Bounded(sessionAt, refreshAt)
  }

  // --------------------------------------------------------------------------- runs

  datatype Op =
    | Login(sid: Sid, jti: Jti, sessionHash: Hash, refreshHash: Hash, refreshExpires: int, license: nat,
            validFrom: int, validUntil: int)
    | Refresh(hash: Hash, jti: Jti, sid: Sid, replacement: RefreshData)
    | RevokeSid(sid: Sid)               // revocation of one session, however late
    | RevokeAll                         // revocation of the user, or no licence left
    | Reconcile(scope: Option<Sid>, license: nat, validFrom: int, validUntil: int)
    | Tick(now: int)

  // A refresh token that was rotated, and the hash that was presented for it.
  datatype Exchange = Exchange(jti: Jti, presented: Hash)

  // The keys and what happened so far.
  datatype World = World(
    redis: Redis,
    logins: map<Sid, int>,              // session_expires_at granted by each login
    issued: map<Jti, Hash>,             // refresh tokens and the hash each was issued with
    exchanged: seq<Exchange>)           // refresh tokens rotated, in order

  function Empty(now: int): World { World(Redis(None, None, now), map[], map[], []) }

  // Fresh session ids and token ids; the clock never goes back.
  predicate Enabled(w: World, op: Op) {
    match op
    case Login(sid, jti, _, _, _, _, _, _) => sid !in w.logins && jti !in w.issued
    case Refresh(_, _, _, replacement) => replacement.jti !in w.issued
    case Tick(now) => w.redis.now <= now
    case _ => true
  }

  function LoginKeys(r: Redis, op: Op): Redis
    requires op.Login?
  {
    var at := Min(op.refreshExpires, op.validUntil);
    Activated(r, SessionData(op.sid, op.sessionHash, op.license, op.validFrom, op.validUntil, op.refreshExpires,
                             op.refreshExpires),
              RefreshData(op.refreshHash, op.jti, op.sid, op.refreshExpires), at, at)
  }

  function KeysAfter(r: Redis, op: Op): Redis {
    match op
    case Login(_, _, _, _, _, _, _, _) => LoginKeys(r, op)
    case Refresh(hash, jti, sid, replacement) => Rotated(r, hash, jti, sid, replacement).0
    case RevokeSid(sid) => DeletedIfSid(r, sid).0
    case RevokeAll => DeletedBoth(r)
    case Reconcile(scope, license, from, until) => Reconciled(r, scope, license, from, until).0
    case Tick(now) => r.(now := now)
  }

  function Next(w: World, op: Op): World {
    var r := KeysAfter(w.redis, op);
    match op
    case Login(sid, jti, _, refreshHash, expires, _, _, _) =>
      w.(redis := r, logins := w.logins[sid := expires], issued := w.issued[jti := refreshHash])
    case Refresh(hash, jti, sid, replacement) =>
      var ok := Rotated(w.redis, hash, jti, sid, replacement).1;
      w.(redis := r, issued := w.issued[replacement.jti := replacement.tokenHash],
         exchanged := if ok then w.exchanged + [Exchange(jti, hash)] else w.exchanged)
    case _ => w.(redis := r)
  }

  predicate Runnable(w: World, ops: seq<Op>)
    decreases |ops|
  {
    ops == [] || (Enabled(w, ops[0]) && Runnable(Next(w, ops[0]), ops[1..]))
  }

  function Exec(w: World, ops: seq<Op>): World
    decreases |ops|
  {
    if ops == [] then w else Exec(Next(w, ops[0]), ops[1..])
  }

  // ---------------------------------------------------------------------- invariant

  predicate SessionOk(w: World, k: Key<SessionData>) {
    && k.expireAt == Min(k.data.sessionExpires, k.data.licenseExpires)
    && k.data.sid in w.logins && w.logins[k.data.sid] == k.data.sessionExpires
  }

  predicate PairOk(s: Key<SessionData>, f: Key<RefreshData>) {
    && s.data.sid == f.data.sid
    && f.expireAt == Min(f.data.refreshExpires, s.data.licenseExpires)
    && s.data.refreshExpires == f.data.refreshExpires
  }

  // No token is exchanged twice.
  predicate OncePerToken(s: seq<Exchange>) { forall i, j :: 0 <= i < j < |s| ==> s[i].jti != s[j].jti }

  // Every exchange presented the hash its token was issued with.
  predicate Presented(w: World) {
    forall i :: 0 <= i < |w.exchanged| ==>
      w.exchanged[i].jti in w.issued && w.exchanged[i].presented == w.issued[w.exchanged[i].jti]
  }

  predicate RefreshOk(w: World, f: RefreshData) {
    && f.jti in w.issued && w.issued[f.jti] == f.tokenHash
    && forall i :: 0 <= i < |w.exchanged| ==> w.exchanged[i].jti != f.jti
  }

  predicate TokensOk(w: World) {
    && (w.redis.refresh.Some? ==> RefreshOk(w, w.redis.refresh.value.data))
    && Presented(w) && OncePerToken(w.exchanged)
  }

  predicate Inv(w: World) {
    && (w.redis.session.Some? ==> SessionOk(w, w.redis.session.value))
    && (w.redis.session.Some? && w.redis.refresh.Some? ==> PairOk(w.redis.session.value, w.redis.refresh.value))
    && TokensOk(w)
  }

  lemma TokensKept(w: World, op: Op)
    requires TokensOk(w) && Enabled(w, op)
    ensures TokensOk(Next(w, op))
  {
  }

  lemma StepKeepsInv(w: World, op: Op)
    requires Inv(w) && Enabled(w, op)
    ensures Inv(Next(w, op))
  {
    TokensKept(w, op);
    hide TokensOk;
  }

  lemma {:induction false} RunKeepsInv(w: World, ops: seq<Op>)
    requires Inv(w) && Runnable(w, ops)
    ensures Inv(Exec(w, ops))
    decreases |ops|
  {
    if ops != [] {
      StepKeepsInv(w, ops[0]);
      hide Inv, Next;
      RunKeepsInv(Next(w, ops[0]), ops[1..]);
    }
  }

  /** In every reachable state: two live keys share one sid, the session key
      lives exactly until min(session_expires_at, license_expires_at), the refresh
      key until min(refresh_expires_at, license_expires_at), and session_expires_at
      is what the login of that sid granted. */
  lemma LivePairIsCoherent(start: int, ops: seq<Op>)
    requires Runnable(Empty(start), ops)
    ensures var w := Exec(Empty(start), ops); var r := w.redis;
      BothLive(r) ==>
        && r.session.value.data.sid == r.refresh.value.data.sid
        && r.session.value.expireAt == Min(r.session.value.data.sessionExpires, r.session.value.data.licenseExpires)
        && r.refresh.value.expireAt == Min(r.refresh.value.data.refreshExpires, r.session.value.data.licenseExpires)
        && r.session.value.data.sid in w.logins
        && r.session.value.data.sessionExpires == w.logins[r.session.value.data.sid]
  {
    RunKeepsInv(Empty(start), ops);
    hide Runnable, Exec;
  }

  /** No refresh token is ever exchanged twice. */
  lemma EachTokenRotatesOnce(start: int, ops: seq<Op>)
    requires Runnable(Empty(start), ops)
    ensures OncePerToken(Exec(Empty(start), ops).exchanged)
  {
    RunKeepsInv(Empty(start), ops);
    hide Runnable, Exec;
  }

  /** Every exchange, in every run, presented the hash its token was issued with by a login or
      as the replacement of another exchange. */
  lemma ExchangesPresentTheToken(start: int, ops: seq<Op>)
    requires Runnable(Empty(start), ops)
    ensures Presented(Exec(Empty(start), ops))
  {
    RunKeepsInv(Empty(start), ops);
    hide Runnable, Exec;
  }

  lemma {:induction false} LoginsStay(w: World, ops: seq<Op>, sid: Sid)
    requires Runnable(w, ops) && sid in w.logins
    ensures sid in Exec(w, ops).logins && Exec(w, ops).logins[sid] == w.logins[sid]
    decreases |ops|
  {
    if ops != [] {
      assert sid in Next(w, ops[0]).logins;
      LoginsStay(Next(w, ops[0]), ops[1..], sid);
    }
  }

  /** session_expires_at of a session never changes: rotations and reconciliations keep what the login granted. */
  lemma SessionExpiryIsFixed(start: int, ops: seq<Op>, more: seq<Op>)
    requires Runnable(Empty(start), ops) && Runnable(Exec(Empty(start), ops), more)
    ensures var a := Exec(Empty(start), ops).redis; var b := Exec(Exec(Empty(start), ops), more).redis;
      a.session.Some? && b.session.Some? && a.session.value.data.sid == b.session.value.data.sid ==>
        a.session.value.data.sessionExpires == b.session.value.data.sessionExpires
  {
    RunKeepsInv(Empty(start), ops);
    var w := Exec(Empty(start), ops);
    RunKeepsInv(w, more);
    if w.redis.session.Some? { LoginsStay(w, more, w.redis.session.value.data.sid); }
    hide Runnable, Exec, TokensOk;
  }

  // ------------------------------------------------------------- what ends a session

  predicate LiveAs(r: Redis, sid: Sid) { BothLive(r) && r.session.value.data.sid == sid }

  // The operations that take a live pair of this sid away.
  predicate Ends(r: Redis, op: Op, sid: Sid)
    requires LiveAs(r, sid)
  {
    match op
    case Login(_, _, _, _, _, _, _, _) => true
    case RevokeSid(other) => other == sid
    case RevokeAll => true
    case Reconcile(scope, _, _, _) => scope.Some? && scope.value != sid
    case Tick(now) => r.session.value.expireAt <= now || r.refresh.value.expireAt <= now
    case Refresh(_, _, _, _) => false
  }

  /** A live pair ends by exactly: a new login, its own revocation, a revocation
      of the user, a reconciliation meant for another sid, or its expiry.  A late
      revocation for another sid and a replayed refresh token leave it alive. */
  lemma PairEndsIff(w: World, op: Op, sid: Sid)
    requires Inv(w) && Enabled(w, op) && LiveAs(w.redis, sid)
    ensures LiveAs(Next(w, op).redis, sid) <==> !Ends(w.redis, op, sid)
  {
    hide TokensOk;
  }

  /** A login opens a pair under its own sid, with its hashes and expiries, unless it is over at once. */
  lemma LoginOpensPair(w: World, op: Op)
    requires op.Login?
    ensures var r := Next(w, op).redis;
      && (LiveAs(r, op.sid) <==> w.redis.now < op.refreshExpires && w.redis.now < op.validUntil)
      && r.session.Some? && r.refresh.Some? && r.refresh.value.data
         == RefreshData(op.refreshHash, op.jti, op.sid, op.refreshExpires)
      && r.session.value.data.tokenHash == op.sessionHash && r.session.value.data.license == op.license
      && r.session.value.data.validFrom == op.validFrom && r.session.value.data.licenseExpires == op.validUntil
      && r.session.value.data.sessionExpires == op.refreshExpires
      && r.session.value.data.refreshExpires == op.refreshExpires
  {
  }

  predicate NoneEnds(w: World, ops: seq<Op>, sid: Sid)
    decreases |ops|
  {
    ops == [] || (LiveAs(w.redis, sid) && !Ends(w.redis, ops[0], sid) && NoneEnds(Next(w, ops[0]), ops[1..], sid))
  }

  /** Over whole runs: without such an operation the pair is live at the end
      under the same sid and with the session expiry it started with. */
  lemma {:induction false} PairSurvives(w: World, ops: seq<Op>, sid: Sid)
    requires Inv(w) && Runnable(w, ops) && LiveAs(w.redis, sid) && NoneEnds(w, ops, sid)
    ensures LiveAs(Exec(w, ops).redis, sid)
    ensures Exec(w, ops).redis.session.value.data.sessionExpires == w.redis.session.value.data.sessionExpires
    decreases |ops|
  {
    if ops != [] {
      PairEndsIff(w, ops[0], sid);
      StepKeepsInv(w, ops[0]);
      assert LiveAs(Next(w, ops[0]).redis, sid);
      assert Next(w, ops[0]).logins[sid] == w.logins[sid];
      hide TokensOk;
      PairSurvives(Next(w, ops[0]), ops[1..], sid);
    }
  }

  /** A late revocation of one sid leaves a live pair of another exactly as it is. */
  lemma LateRevokeIsHarmless(w: World, late: Sid, sid: Sid)
    requires Inv(w) && LiveAs(w.redis, sid)
    ensures late != sid ==> Next(w, RevokeSid(late)) == w
    ensures late == sid ==> Get(Next(w, RevokeSid(late)).redis.session, w.redis.now).None?
                            && Get(Next(w, RevokeSid(late)).redis.refresh, w.redis.now).None?
  {
  }

  /** The script and the Python rule agree: on a live pair an unscoped
      reconciliation succeeds exactly when the rule accepts, with its expiries. */
  lemma ReconcileAgrees(r: Redis, license: nat, validFrom: int, expires: int)
    requires BothLive(r)
    ensures var rule := ReconciliationExpiries(r.session.value.data, r.refresh.value.data, validFrom, expires, r.now);
      var (r', ok) := Reconciled(r, None, license, validFrom, expires);
      && (ok <==> rule.Bounded?)
      && (ok ==> r'.session.value.expireAt == rule.session && r'.refresh.value.expireAt == rule.refresh && BothLive(r'))
  {
  }

  // ---------------------------------------------------------------------- the store

  // The two keys as Redis holds them, changed by the scripts in place.
  class SessionStore {
    var session: Option<Key<SessionData>>
    var refresh: Option<Key<RefreshData>>
    var now: int

    function View(): Redis
      reads this
    {
      Redis(session, refresh, now)
    }

    constructor (start: int)
      ensures View() == Empty(start).redis
    {
      session, refresh, now := None, None, start;
    }

    // An EXPIREAT keeps the value.
    method Set(s: SessionData, sessionAt: int, f: RefreshData, refreshAt: int)
      modifies this`session, this`refresh
      ensures View() == Activated(old(View()), s, f, sessionAt, refreshAt)
    {
      session := Some(Key(s, sessionAt));
      refresh := Some(Key(f, refreshAt));
    }

    method RotateRefresh(hash: Hash, jti: Jti, sid: Sid, replacement: RefreshData) returns (ok: bool)
      modifies this`session, this`refresh
      ensures (View(), ok) == Rotated(old(View()), hash, jti, sid, replacement)
      ensures ok <==>
        && old(session).Some? && now < old(session).value.expireAt
        && old(refresh).Some? && now < old(refresh).value.expireAt
        && old(refresh).value.data.tokenHash == hash && old(refresh).value.data.jti == jti
        && old(refresh).value.data.sid == sid && old(session).value.data.sid == sid && replacement.sid == sid
        && now < replacement.refreshExpires && now < old(session).value.data.sessionExpires
        && now < old(session).value.data.licenseExpires
      ensures ok ==>
        && refresh == Some(Key(replacement, Min(replacement.refreshExpires, old(session).value.data.licenseExpires)))
        && session.Some? && session.value.data.refreshExpires == replacement.refreshExpires
        && session.value.data == old(session).value.data.(refreshExpires := session.value.data.refreshExpires)
        && session.value.expireAt
           == Min(old(session).value.data.sessionExpires, old(session).value.data.licenseExpires)
        && BothLive(View())
      ensures !ok ==> View() == old(View())
    {
      var current, data := Get(refresh, now), Get(session, now);
      if current.None? || data.None? { return false; }
      var f, s := current.value, data.value;
      if f.tokenHash != hash || f.jti != jti || f.sid != sid || s.sid != sid || replacement.sid != sid { return false; }
      var refreshAt := Min(replacement.refreshExpires, s.licenseExpires);
      var sessionAt := Min(s.sessionExpires, s.licenseExpires);
      if refreshAt <= now || sessionAt <= now { return false; }
      Set(s.(refreshExpires := replacement.refreshExpires), sessionAt, replacement, refreshAt);
      return true;
    }

    method DeleteIfSid(sid: Sid) returns (ok: bool)
      modifies this`session, this`refresh
      ensures (View(), ok) == DeletedIfSid(old(View()), sid)
      ensures forall other :: LiveAs(old(View()), other) ==> (LiveAs(View(), other) <==> other != sid)
      ensures ok <==>
        !(old(session).Some? && now < old(session).value.expireAt && old(session).value.data.sid != sid)
      ensures ok ==> refresh.None? && (session.Some? ==> session == old(session) && session.value.expireAt <= now)
      ensures !ok ==> View() == old(View())
    {
      var data := Get(session, now);
      if data.None? {
        refresh := None;
        return true;
      }
      if data.value.sid != sid { return false; }
      session, refresh := None, None;
      return true;
    }

    method ReconcilePair(scope: Option<Sid>, license: nat, validFrom: int, expires: int) returns (ok: bool)
      modifies this`session, this`refresh
      ensures (View(), ok) == Reconciled(old(View()), scope, license, validFrom, expires)
      ensures ok <==>
        && BothLive(old(View())) && old(session).value.data.sid == old(refresh).value.data.sid
        && (scope.Some? ==> old(session).value.data.sid == scope.value) && validFrom <= now < expires
        && now < old(session).value.data.sessionExpires && now < old(refresh).value.data.refreshExpires
      ensures ok ==>
        && BothLive(View()) && refresh.value.data == old(refresh).value.data
        && session.value.data.sid == old(session).value.data.sid
        && session.value.data.tokenHash == old(session).value.data.tokenHash
        && session.value.data.sessionExpires == old(session).value.data.sessionExpires
        && session.value.data.refreshExpires == refresh.value.data.refreshExpires
        && session.value.data.license == license && session.value.data.validFrom == validFrom
        && session.value.data.licenseExpires == expires
        && session.value.expireAt == Min(session.value.data.sessionExpires, expires)
        && refresh.value.expireAt == Min(refresh.value.data.refreshExpires, expires)
      // Otherwise a pair that the licence alone does not cover yet or any more is left, and any other is removed.
      ensures !ok ==>
        if BothLive(old(View())) && old(session).value.data.sid == old(refresh).value.data.sid
           && (scope.Some? ==> old(session).value.data.sid == scope.value) && !(validFrom <= now < expires)
        then View() == old(View()) else session.None? && refresh.None?
    {
      var data, current := Get(session, now), Get(refresh, now);
      if data.None? || current.None? || data.value.sid != current.value.sid
         || (scope.Some? && data.value.sid != scope.value) {
        session, refresh := None, None;
        return false;
      }
      if validFrom > now || expires <= now { return false; }
      var s, f := data.value, current.value;
      var sessionAt, refreshAt := Min(s.sessionExpires, expires), Min(f.refreshExpires, expires);
      if sessionAt <= now || refreshAt <= now {
        session, refresh := None, None;
        return false;
      }
      Set(s.(license := license, validFrom := validFrom, licenseExpires := expires, refreshExpires := f.refreshExpires),
          sessionAt, f, refreshAt);
      return true;
    }
  }
}
