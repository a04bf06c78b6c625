/**
 User and licence administration of the central service, and the rule that the
 last operational super-admin cannot be removed.  Every mutation is one
 transaction; those that can shrink the set hold one advisory lock.
 */
module SuperAdmin {
  import opened Prelude

  type UserId = nat
  type LicenceId = nat
  type Time = int

  datatype Role = SuperAdmin | Admin | Staff | VaUser

  datatype User = User(role: Role, active: bool, deleted: bool)
  datatype Licence = Licence(user: UserId, from: Time, until: Time, active: bool)

  // The two tables and the database clock.
  datatype Tables = Tables(users: map<UserId, User>, licences: map<LicenceId, Licence>, now: Time)

  datatype Actor = Actor(id: UserId, role: Role)

  datatype Outcome = Done | BadRequest | Forbidden | NotFound | Unprocessable | EmailTaken | LastSuperAdmin

  // `others`: the patch sets some further column, which no rule here reads.
  datatype Op =
    | CreateUser(id: UserId, newRole: Role, taken: bool)
    | UpdateUser(user: UserId, role: Option<Role>, others: bool, taken: bool)
    | DeleteUser(user: UserId)
    | ToggleActive(user: UserId)
    | CreateLicence(id: LicenceId, user: UserId, start: Time, end: Time)
    | UpdateLicence(licence: LicenceId, from: Option<Time>, until: Option<Time>, active: Option<bool>, others: bool)
    | ExpireLicence(licence: LicenceId)

  // ---------------------------------------------------------------- who is operational

  predicate Current(l: Licence, now: Time) { l.active && l.from <= now < l.until }

  predicate Licensed(t: Tables, u: UserId, excluded: Option<LicenceId>) {
    exists l :: l in t.licences && t.licences[l].user == u && Some(l) != excluded && Current(t.licences[l], t.now)
  }

  predicate IsOperational(t: Tables, u: UserId) {
    && u in t.users && t.users[u].role == SuperAdmin && t.users[u].active && !t.users[u].deleted
    && Licensed(t, u, None)
  }

  function Operational(t: Tables): set<UserId> {
    set u | u in t.users && IsOperational(t, u)
  }

  // ---------------------------------------------------------------------- the guards

  // assert_can_manage_target
  predicate CanManage(actor: Actor, target: Role) {
    actor.role == SuperAdmin || (actor.role == Admin && (target == Staff || target == VaUser))
  }

  // protect_last_super_admin: true when it refuses
  predicate Refuses(t: Tables, target: UserId, role: Role, excluded: Option<LicenceId>) {
    if role != SuperAdmin then false
    else if !IsOperational(t, target) then false
    else if excluded.Some? && Licensed(t, target, excluded) then false
    else |Operational(t) - {target}| == 0
  }

  // The row a mutation of a user locks.
  function Target(t: Tables, u: UserId): Option<User> {
    if u in t.users && !t.users[u].deleted then Some(t.users[u]) else None
  }

  // The joined row a mutation of a licence locks.
  function Owner(t: Tables, l: LicenceId): Option<User> {
    if l in t.licences && t.licences[l].user in t.users then Some(t.users[t.licences[l].user]) else None
  }

  function Or<T>(v: Option<T>, present: T): T { if v.Some? then v.value else present }

  // -------------------------------------------------------------------- one mutation

  // Everything a mutation checks before the super-admin rule.
  function Checks(t: Tables, actor: Actor, op: Op): Outcome {
    match op
    case CreateUser(_, role, _) => if role == Staff || role == VaUser then Done else Unprocessable
    case UpdateUser(u, role, others, _) =>
      if role == Some(SuperAdmin) then Unprocessable
      else if role.None? && !others then BadRequest
      else if Target(t, u).None? then NotFound
      else if !CanManage(actor, Target(t, u).value.role) then Forbidden
      else if role == Some(Admin) && actor.role != SuperAdmin then Forbidden
      else Done
    case DeleteUser(u) =>
      if u == actor.id then BadRequest
      else if Target(t, u).None? then NotFound
      else if !CanManage(actor, Target(t, u).value.role) then Forbidden else Done
    case ToggleActive(u) =>
      if u == actor.id then BadRequest
      else if Target(t, u).None? then NotFound
      else if !CanManage(actor, Target(t, u).value.role) then Forbidden else Done
    case CreateLicence(_, u, start, end) =>
      if end <= start then Unprocessable
      else if Target(t, u).None? then NotFound
      else if !CanManage(actor, Target(t, u).value.role) then Forbidden else Done
    case UpdateLicence(l, from, until, active, others) =>
      if from.None? && until.None? && active.None? && !others then BadRequest
      else if Owner(t, l).None? then NotFound
      else if !CanManage(actor, Owner(t, l).value.role) then Forbidden
      else if Or(until, t.licences[l].until) <= Or(from, t.licences[l].from) then Unprocessable
      else Done
    case ExpireLicence(l) =>
      if Owner(t, l).None? then NotFound
      else if !CanManage(actor, Owner(t, l).value.role) then Forbidden else Done
  }

  function Patched(l: Licence, from: Option<Time>, until: Option<Time>, active: Option<bool>): Licence {
    l.(from := Or(from, l.from), until := Or(until, l.until), active := Or(active, l.active))
  }

  // Where each mutation calls protect_last_super_admin, and whether that refuses.
  predicate Protected(t: Tables, actor: Actor, op: Op)
    requires Checks(t, actor, op).Done?
  {
    match op
    case UpdateUser(u, role, _, _) =>
      role.Some? && t.users[u].role == SuperAdmin && Refuses(t, u, t.users[u].role, None)
    case DeleteUser(u) => Refuses(t, u, t.users[u].role, None)
    case ToggleActive(u) => t.users[u].active && Refuses(t, u, t.users[u].role, None)
    case UpdateLicence(l, from, until, active, _) =>
      && !Current(Patched(t.licences[l], from, until, active), t.now)
      && Refuses(t, t.licences[l].user, Owner(t, l).value.role, Some(l))
    case ExpireLicence(l) => Refuses(t, t.licences[l].user, Owner(t, l).value.role, Some(l))
    case _ => false
  }

  // The write itself.
  function Written(t: Tables, actor: Actor, op: Op): Tables
    requires Checks(t, actor, op).Done?
  {
    match op
    case CreateUser(id, role, _) => t.(users := t.users[id := User(role, true, false)])
    case UpdateUser(u, role, _, _) => t.(users := t.users[u := t.users[u].(role := Or(role, t.users[u].role))])
    case DeleteUser(u) => t.(users := t.users[u := t.users[u].(deleted := true, active := false)])
    case ToggleActive(u) => t.(users := t.users[u := t.users[u].(active := !t.users[u].active)])
    case CreateLicence(id, u, start, end) => t.(licences := t.licences[id := Licence(u, start, end, true)])
    case UpdateLicence(l, from, until, active, _) =>
      t.(licences := t.licences[l := Patched(t.licences[l], from, until, active)])
    case ExpireLicence(l) => t.(licences := t.licences[l := t.licences[l].(until := t.now, active := false)])
  }

  predicate Taken(op: Op) { (op.CreateUser? || op.UpdateUser?) && op.taken }

  function Result(t: Tables, actor: Actor, op: Op): Outcome {
    if !Checks(t, actor, op).Done? then Checks(t, actor, op)
    else if Protected(t, actor, op) then LastSuperAdmin
    else if Taken(op) then EmailTaken
    else Done
  }

  function After(t: Tables, actor: Actor, op: Op): Tables {
    if Result(t, actor, op).Done? then Written(t, actor, op) else t
  }

  // Fresh ids.
  predicate Enabled(t: Tables, op: Op) {
    match op
    case CreateUser(id, _, _) => id !in t.users && forall l :: l in t.licences ==> t.licences[l].user != id
    case CreateLicence(id, _, _, _) => id !in t.licences
    case _ => true
  }

  // --------------------------------------------------------------------- the theorem

  // A write of one user's row changes at most whether that user is operational.
  lemma UserWrite(t: Tables, u: UserId, row: User)
    requires u in t.users
    ensures var t' := t.(users := t.users[u := row]);
      && (Operational(t') - {u} == Operational(t) - {u})
      && (u in Operational(t') <==> row.role == SuperAdmin && row.active && !row.deleted && Licensed(t, u, None))
  {
    var t' := t.(users := t.users[u := row]);
    forall v ensures Licensed(t', v, None) == Licensed(t, v, None) { }
  }

  // A write of one licence changes at most whether its holder is operational.
  lemma LicenceWrite(t: Tables, l: LicenceId, row: Licence)
    requires l in t.licences ==> t.licences[l].user == row.user
    ensures var t' := t.(licences := t.licences[l := row]);
      && (Operational(t') - {row.user} == Operational(t) - {row.user})
      && (Licensed(t', row.user, None) <==> Licensed(t, row.user, Some(l)) || Current(row, t.now))
  {
    var t' := t.(licences := t.licences[l := row]);
    forall k | k in t.licences && k != l ensures t'.licences[k] == t.licences[k] { }
    forall v | v != row.user ensures Licensed(t', v, None) == Licensed(t, v, None) {
      forall k | k in t.licences && t.licences[k].user == v ensures k != l && t'.licences[k] == t.licences[k] { }
    }
    assert Current(row, t.now) ==> Licensed(t', row.user, None) by { assert t'.licences[l] == row; }
    if Licensed(t, row.user, Some(l)) {
      var k :| k in t.licences && t.licences[k].user == row.user && Some(k) != Some(l) && Current(t.licences[k], t.now);
      assert t'.licences[k] == t.licences[k];
    }
  }

  lemma RefusesMeansAlone(t: Tables, u: UserId, excluded: Option<LicenceId>)
    requires u in t.users
    ensures Refuses(t, u, t.users[u].role, excluded) <==>
      && u in Operational(t) && Operational(t) - {u} == {}
      && !(excluded.Some? && Licensed(t, u, excluded))
  {
    assert |Operational(t) - {u}| == 0 <==> Operational(t) - {u} == {};
  }

  lemma EmptiedIff(before: set<UserId>, after: set<UserId>, u: UserId)
    requires before - {u} == after - {u}
    ensures before != {} && after == {} <==> u in before && u !in after && before - {u} == {}
  {
    if u in before && u !in after && before - {u} == {} {
      assert forall v :: v in after && v != u ==> v in after - {u};
    }
    if before != {} && after == {} {
      var v :| v in before;
      assert v != u ==> v in before - {u};
    }
  }

  lemma UserRefusedIff(t: Tables, actor: Actor, op: Op)
    requires Checks(t, actor, op).Done? && (op.UpdateUser? || op.DeleteUser? || op.ToggleActive?)
    ensures Protected(t, actor, op) <==> Operational(t) != {} && Operational(Written(t, actor, op)) == {}
  {
    var u := op.user;
    var t' := Written(t, actor, op);
    UserWrite(t, u, t'.users[u]);
    RefusesMeansAlone(t, u, None);
    assert t' == t.(users := t.users[u := t'.users[u]]);
    EmptiedIff(Operational(t), Operational(t'), u);
    InOperational(t, u);
    hide Refuses, Operational, Licensed;
  }

  lemma InOperational(t: Tables, u: UserId)
    ensures u in Operational(t) <==> IsOperational(t, u)
  {
  }

  lemma LicenceRefusedIff(t: Tables, actor: Actor, op: Op)
    requires Checks(t, actor, op).Done? && (op.UpdateLicence? || op.ExpireLicence?)
    ensures Protected(t, actor, op) <==> Operational(t) != {} && Operational(Written(t, actor, op)) == {}
  {
    var l := op.licence;
    var u := t.licences[l].user;
    var t' := Written(t, actor, op);
    LicenceWrite(t, l, t'.licences[l]);
    RefusesMeansAlone(t, u, Some(l));
    assert t' == t.(licences := t.licences[l := t'.licences[l]]);
    EmptiedIff(Operational(t), Operational(t'), u);
    InOperational(t, u);
    InOperational(t', u);
    ExcludedIsWeaker(t, u, l);
    hide Refuses, Operational, Licensed;
  }

  lemma ExcludedIsWeaker(t: Tables, u: UserId, l: LicenceId)
    ensures Licensed(t, u, Some(l)) ==> Licensed(t, u, None)
    ensures l in t.licences && t.licences[l].user == u && !Current(t.licences[l], t.now) && Licensed(t, u, None) ==>
      Licensed(t, u, Some(l))
  {
  }

  /** A mutation that passes its other checks is refused with the last-super-admin
      conflict exactly when its write would empty a non-empty operational set. */
  lemma RefusedIffLast(t: Tables, actor: Actor, op: Op)
    requires Enabled(t, op) && Checks(t, actor, op).Done?
    ensures Result(t, actor, op) == LastSuperAdmin <==> Operational(t) != {} && Operational(Written(t, actor, op)) == {}
  {
    match op {
      case CreateUser(id, role, _) => CreationKeeps(t, actor, op);
      case CreateLicence(id, u, start, end) => CreationKeeps(t, actor, op);
      case UpdateUser(_, _, _, _) => UserRefusedIff(t, actor, op);
      case DeleteUser(_) => UserRefusedIff(t, actor, op);
      case ToggleActive(_) => UserRefusedIff(t, actor, op);
      case UpdateLicence(_, _, _, _, _) => LicenceRefusedIff(t, actor, op);
      case ExpireLicence(_) => LicenceRefusedIff(t, actor, op);
    }
    hide Operational, Refuses, Licensed;
  }

  lemma CreationKeeps(t: Tables, actor: Actor, op: Op)
    requires Enabled(t, op) && Checks(t, actor, op).Done? && (op.CreateUser? || op.CreateLicence?)
    ensures Operational(t) <= Operational(Written(t, actor, op))
  {
    var t' := Written(t, actor, op);
    forall u | u in Operational(t) ensures u in Operational(t') {
      var l :| l in t.licences && t.licences[l].user == u && Current(t.licences[l], t.now);
      assert t'.licences[l] == t.licences[l];
    }
  }

  predicate Runnable(t: Tables, calls: seq<(Actor, Op)>)
    decreases |calls|
  {
    calls == [] || (Enabled(t, calls[0].1) && Runnable(After(t, calls[0].0, calls[0].1), calls[1..]))
  }

  function Exec(t: Tables, calls: seq<(Actor, Op)>): Tables
    decreases |calls|
  {
    if calls == [] then t else Exec(After(t, calls[0].0, calls[0].1), calls[1..])
  }

  /** At a fixed clock no run of mutations, by any actors, removes the last operational super-admin. */
  lemma {:induction false} SomeoneStaysOperational(t: Tables, calls: seq<(Actor, Op)>)
    requires Runnable(t, calls) && Operational(t) != {}
    ensures Operational(Exec(t, calls)) != {}
    decreases |calls|
  {
    if calls != [] {
      var (actor, op) := calls[0];
      if Checks(t, actor, op).Done? { RefusedIffLast(t, actor, op); }
      hide Operational, Checks, Protected, Written;
      SomeoneStaysOperational(After(t, actor, op), calls[1..]);
    }
  }

  /** Only a super-admin can take a super-admin out of service or change one's licences. */
  lemma OnlySuperAdminsTouchSuperAdmins(t: Tables, actor: Actor, op: Op, u: UserId)
    requires Enabled(t, op) && actor.role != SuperAdmin && u in t.users && t.users[u].role == SuperAdmin
    requires !t.users[u].deleted
    ensures var t' := After(t, actor, op); u in t'.users && t'.users[u] == t.users[u]
    ensures u in Operational(t) ==> u in Operational(After(t, actor, op))
  {
    var t' := After(t, actor, op);
    assert t'.users[u] == t.users[u];
    if u in Operational(t) {
      var l :| l in t.licences && t.licences[l].user == u && Current(t.licences[l], t.now);
      assert l in t'.licences && t'.licences[l] == t.licences[l];
    }
  }

  // -------------------------------------------------------------------- the routers

  lemma StepKeepsSomeone(t: Tables, actor: Actor, op: Op)
    requires Enabled(t, op)
    ensures Operational(t) != {} ==> Operational(After(t, actor, op)) != {}
  {
    if Checks(t, actor, op).Done? { RefusedIffLast(t, actor, op); }
    hide Operational, Checks, Protected, Written;
  }

  /** Two accepted toggles restore the tables, whoever makes them. */
  lemma ToggleTwiceRestores(t: Tables, actor: Actor, other: Actor, user: UserId)
    requires Result(t, actor, Op.ToggleActive(user)) == Done
    requires Result(After(t, actor, Op.ToggleActive(user)), other, Op.ToggleActive(user)) == Done
    ensures After(After(t, actor, Op.ToggleActive(user)), other, Op.ToggleActive(user)) == t
    ensures After(t, actor, Op.ToggleActive(user)) != t
  {
    var t' := After(t, actor, Op.ToggleActive(user));
    assert t'.users[user].active != t.users[user].active;
    assert After(t', other, Op.ToggleActive(user)).users == t.users;
    hide Protected;
  }

  // A super-admin manages everybody, an admin staff and video analysts.
  predicate Manages(actor: Actor, role: Role) {
    match actor.role
    case SuperAdmin => true
    case Admin => role == Staff || role == VaUser
    case _ => false
  }

  // Nobody else is operational.
  predicate Alone(t: Tables, u: UserId) { Operational(t) == {u} }

  lemma AloneIff(t: Tables, u: UserId)
    ensures Alone(t, u) <==> u in Operational(t) && Operational(t) - {u} == {}
    ensures Alone(t, u) ==> IsOperational(t, u)
  {
    if u in Operational(t) && Operational(t) - {u} == {} {
      forall v | v in Operational(t) ensures v == u { assert v != u ==> v in Operational(t) - {u}; }
    }
    InOperational(t, u);
  }

  predicate Exists(users: map<UserId, User>, u: UserId) { u in users && !users[u].deleted }

  // Only this user's row changes.
  ghost predicate OnlyUser(users: map<UserId, User>, users': map<UserId, User>, u: UserId) {
    u in users && users'.Keys == users.Keys && forall v :: v in users && v != u ==> users'[v] == users[v]
  }

  ghost predicate OnlyLicence(licences: map<LicenceId, Licence>, licences': map<LicenceId, Licence>, l: LicenceId) {
    l in licences && licences'.Keys == licences.Keys
    && forall k :: k in licences && k != l ==> licences'[k] == licences[k]
  }

  predicate Held(t: Tables, licence: LicenceId) { licence in t.licences && t.licences[licence].user in t.users }

  // What a licence patch answers.
  predicate PatchAnswers(t: Tables, actor: Actor, licence: LicenceId, start: Time, end: Time, empty: bool,
                         outcome: Outcome) {
    match outcome
    case BadRequest => empty
    case NotFound => !empty && !Held(t, licence)
    case Forbidden => !empty && Held(t, licence) && !Manages(actor, t.users[t.licences[licence].user].role)
    case Unprocessable =>
      !empty && Held(t, licence) && Manages(actor, t.users[t.licences[licence].user].role) && end <= start
    case LastSuperAdmin =>
      && !empty && Held(t, licence) && Manages(actor, t.users[t.licences[licence].user].role) && start < end
      && Alone(t, t.licences[licence].user)
    case Done =>
      !empty && Held(t, licence) && Manages(actor, t.users[t.licences[licence].user].role) && start < end
    case EmailTaken => false
  }

  lemma PatchIsAnswered(t: Tables, actor: Actor, op: Op)
    requires op.UpdateLicence?
    ensures op.licence in t.licences ==>
      var l := t.licences[op.licence];
      PatchAnswers(t, actor, op.licence, if op.from.Some? then op.from.value else l.from,
                   if op.until.Some? then op.until.value else l.until,
                   op.from.None? && op.until.None? && op.active.None? && !op.others, Result(t, actor, op))
    ensures op.licence !in t.licences ==>
      Result(t, actor, op)
      == if op.from.None? && op.until.None? && op.active.None? && !op.others then BadRequest else NotFound
  {
    if op.licence in t.licences && t.licences[op.licence].user in t.users {
      AloneIff(t, t.licences[op.licence].user);
      RefusesMeansAlone(t, t.licences[op.licence].user, Some(op.licence));
    }
    hide Operational, IsOperational, Licensed, Alone, Current, Refuses;
  }

  class Directory {
    var users: map<UserId, User>
    var licences: map<LicenceId, Licence>
    var now: Time

    function View(): Tables
      reads this
    {
      Tables(users, licences, now)
    }

    // protect_last_super_admin: true when the mutation must be refused
    method ProtectLastSuperAdmin(target: UserId, role: Role, excluded: Option<LicenceId>) returns (refuse: bool)
      requires target in users && users[target].role == role
      ensures refuse <==> target in Operational(View()) && Operational(View()) - {target} == {}
                          && !(excluded.Some? && Licensed(View(), target, excluded))
    {
      RefusesMeansAlone(View(), target, excluded);
      if role != SuperAdmin || !IsOperational(View(), target) { return false; }
      if excluded.Some? && Licensed(View(), target, excluded) { return false; }
      var remaining := |Operational(View()) - {target}|;
      return remaining == 0;
    }

    method UpdateUser(actor: Actor, user: UserId, role: Option<Role>, others: bool, taken: bool)
      returns (outcome: Outcome)
      modifies this`users
      ensures var op := Op.UpdateUser(user, role, others, taken);
        outcome == Result(old(View()), actor, op) && View() == After(old(View()), actor, op)
      ensures Operational(old(View())) != {} ==> Operational(View()) != {}
      ensures outcome != Done ==> users == old(users)
      ensures outcome == Done ==>
        && OnlyUser(old(users), users, user)
        && users[user].role == (if role.Some? then role.value else old(users)[user].role)
        && users[user].active == old(users)[user].active && !users[user].deleted
      ensures outcome == Unprocessable <==> role == Some(SuperAdmin)
      ensures outcome == BadRequest <==> role.None? && !others
      ensures outcome == NotFound ==> !Exists(old(users), user)
      ensures outcome in {Forbidden, LastSuperAdmin, EmailTaken, Done} ==> Exists(old(users), user)
      ensures outcome in {LastSuperAdmin, EmailTaken, Done} ==> Manages(actor, old(users)[user].role)
      ensures outcome in {LastSuperAdmin, EmailTaken, Done} ==> (role == Some(Admin) ==> actor.role == SuperAdmin)
      ensures outcome == Forbidden ==>
        !Manages(actor, old(users)[user].role) || (role == Some(Admin) && actor.role != SuperAdmin)
      ensures outcome == LastSuperAdmin ==> role.Some? && Alone(old(View()), user)
      ensures outcome == EmailTaken ==> taken
      ensures outcome == Done ==> !taken && !(role.Some? && Alone(old(View()), user))
    {
      StepKeepsSomeone(View(), actor, Op.UpdateUser(user, role, others, taken));
      AloneIff(View(), user);
      if role == Some(SuperAdmin) { return Unprocessable; }
      if role.None? && !others { return BadRequest; }
      if user !in users || users[user].deleted { return NotFound; }
      var target := users[user];
      if !CanManage(actor, target.role) { return Forbidden; }
      if role == Some(Admin) && actor.role != SuperAdmin { return Forbidden; }
      if role.Some? && target.role == SuperAdmin {
        RefusesMeansAlone(View(), user, None);
        var refuse := ProtectLastSuperAdmin(user, target.role, None);
        if refuse { return LastSuperAdmin; }
      }
      if taken { return EmailTaken; }
      users := users[user := target.(role := Or(role, target.role))];
      return Done;
    }

    method DeleteUser(actor: Actor, user: UserId) returns (outcome: Outcome)
      modifies this`users
      ensures outcome == Result(old(View()), actor, Op.DeleteUser(user))
      ensures View() == After(old(View()), actor, Op.DeleteUser(user))
      ensures Operational(old(View())) != {} ==> Operational(View()) != {}
      ensures outcome != Done ==> users == old(users)
      ensures outcome == Done ==>
        && OnlyUser(old(users), users, user) && users[user].deleted && !users[user].active
        && users[user].role == old(users)[user].role
      ensures outcome == BadRequest <==> user == actor.id
      ensures outcome == NotFound ==> !Exists(old(users), user)
      ensures outcome in {Forbidden, LastSuperAdmin, Done} ==> Exists(old(users), user)
      ensures outcome == Forbidden ==> !Manages(actor, old(users)[user].role)
      ensures outcome in {LastSuperAdmin, Done} ==> Manages(actor, old(users)[user].role)
      ensures outcome in {LastSuperAdmin, Done} ==> (outcome == LastSuperAdmin <==> Alone(old(View()), user))
      ensures outcome in {BadRequest, NotFound, Forbidden, LastSuperAdmin, Done}
    {
      StepKeepsSomeone(View(), actor, Op.DeleteUser(user));
      AloneIff(View(), user);
      if user == actor.id { return BadRequest; }
      if user !in users || users[user].deleted { return NotFound; }
      var target := users[user];
      if !CanManage(actor, target.role) { return Forbidden; }
      RefusesMeansAlone(View(), user, None);
      var refuse := ProtectLastSuperAdmin(user, target.role, None);
      if refuse { return LastSuperAdmin; }
      users := users[user := target.(deleted := true, active := false)];
      return Done;
    }

    method ToggleActive(actor: Actor, user: UserId) returns (outcome: Outcome)
      modifies this`users
      ensures outcome == Result(old(View()), actor, Op.ToggleActive(user))
      ensures View() == After(old(View()), actor, Op.ToggleActive(user))
      ensures Operational(old(View())) != {} ==> Operational(View()) != {}
      ensures outcome != Done ==> users == old(users)
      ensures outcome == Done ==>
        && OnlyUser(old(users), users, user) && users[user].active != old(users)[user].active
        && users[user].role == old(users)[user].role && !users[user].deleted
      ensures outcome == BadRequest <==> user == actor.id
      ensures outcome == NotFound ==> !Exists(old(users), user)
      ensures outcome in {Forbidden, LastSuperAdmin, Done} ==> Exists(old(users), user)
      ensures outcome == Forbidden ==> !Manages(actor, old(users)[user].role)
      ensures outcome in {LastSuperAdmin, Done} ==> Manages(actor, old(users)[user].role)
      ensures outcome in {LastSuperAdmin, Done} ==> (outcome == LastSuperAdmin <==> Alone(old(View()), user))
      ensures outcome in {BadRequest, NotFound, Forbidden, LastSuperAdmin, Done}
    {
      StepKeepsSomeone(View(), actor, Op.ToggleActive(user));
      AloneIff(View(), user);
      if user == actor.id { return BadRequest; }
      if user !in users || users[user].deleted { return NotFound; }
      var target := users[user];
      if !CanManage(actor, target.role) { return Forbidden; }
      if target.active {
        RefusesMeansAlone(View(), user, None);
        var refuse := ProtectLastSuperAdmin(user, target.role, None);
        if refuse { return LastSuperAdmin; }
      }
      users := users[user := target.(active := !target.active)];
      return Done;
    }

    method UpdateLicence(actor: Actor, licence: LicenceId, from: Option<Time>, until: Option<Time>,
                         active: Option<bool>, others: bool)
      returns (outcome: Outcome)
      modifies this`licences
      ensures var op := Op.UpdateLicence(licence, from, until, active, others);
        outcome == Result(old(View()), actor, op) && View() == After(old(View()), actor, op)
      ensures Operational(old(View())) != {} ==> Operational(View()) != {}
      ensures outcome != Done ==> licences == old(licences)
      ensures outcome == Done ==>
        && OnlyLicence(old(licences), licences, licence) && licences[licence].user == old(licences)[licence].user
        && licences[licence].from == (if from.Some? then from.value else old(licences)[licence].from)
        && licences[licence].until == (if until.Some? then until.value else old(licences)[licence].until)
        && licences[licence].active == (if active.Some? then active.value else old(licences)[licence].active)
      ensures licence in old(licences) ==>
        var l := old(licences)[licence];
        PatchAnswers(old(View()), actor, licence, if from.Some? then from.value else l.from,
                     if until.Some? then until.value else l.until,
                     from.None? && until.None? && active.None? && !others, outcome)
      ensures licence !in old(licences) ==>
        outcome == if from.None? && until.None? && active.None? && !others then BadRequest else NotFound
    {
      hide Operational, IsOperational, Licensed, PatchAnswers;
      StepKeepsSomeone(View(), actor, Op.UpdateLicence(licence, from, until, active, others));
      PatchIsAnswered(View(), actor, Op.UpdateLicence(licence, from, until, active, others));
      if from.None? && until.None? && active.None? && !others { return BadRequest; }
      if licence !in licences || licences[licence].user !in users { return NotFound; }
      var current := licences[licence];
      if !CanManage(actor, users[current.user].role) { return Forbidden; }
      var validFrom, validUntil := Or(from, current.from), Or(until, current.until);
      if validUntil <= validFrom { return Unprocessable; }
      var remainsActive := Or(active, current.active) && validFrom <= now && validUntil > now;
      if !remainsActive {
        RefusesMeansAlone(View(), current.user, Some(licence));
        var refuse := ProtectLastSuperAdmin(current.user, users[current.user].role, Some(licence));
        if refuse { return LastSuperAdmin; }
      }
      licences := licences[licence := Patched(current, from, until, active)];
      return Done;
    }

    method ExpireLicence(actor: Actor, licence: LicenceId) returns (outcome: Outcome)
      modifies this`licences
      ensures outcome == Result(old(View()), actor, Op.ExpireLicence(licence))
              && View() == After(old(View()), actor, Op.ExpireLicence(licence))
      ensures Operational(old(View())) != {} ==> Operational(View()) != {}
      ensures outcome != Done ==> licences == old(licences)
      ensures outcome == Done ==>
        && OnlyLicence(old(licences), licences, licence) && licences[licence].user == old(licences)[licence].user
        && licences[licence].from == old(licences)[licence].from
        && licences[licence].until == now && !licences[licence].active
      ensures outcome == NotFound ==> !(licence in licences && licences[licence].user in users)
      ensures outcome in {Forbidden, LastSuperAdmin, Done} ==>
        licence in old(licences) && old(licences)[licence].user in users
      ensures outcome == Forbidden ==> !Manages(actor, users[old(licences)[licence].user].role)
      ensures outcome in {LastSuperAdmin, Done} ==> Manages(actor, users[old(licences)[licence].user].role)
      ensures outcome == LastSuperAdmin ==> Alone(old(View()), licences[licence].user)
      ensures outcome in {NotFound, Forbidden, LastSuperAdmin, Done}
    {
      StepKeepsSomeone(View(), actor, Op.ExpireLicence(licence));
      if licence in licences { AloneIff(View(), licences[licence].user); }
      if licence !in licences || licences[licence].user !in users { return NotFound; }
      var current := licences[licence];
      if !CanManage(actor, users[current.user].role) { return Forbidden; }
      RefusesMeansAlone(View(), current.user, Some(licence));
      var refuse := ProtectLastSuperAdmin(current.user, users[current.user].role, Some(licence));
      if refuse { return LastSuperAdmin; }
      licences := licences[licence := current.(until := now, active := false)];
      return Done;
    }
  }
}
