/**
 The administrative mutations as transactions whose checks and writes interleave.
 Those that can shrink the set of operational super-admins hold one advisory
 lock from before their checks to their commit; `locking` says whether they do.
 */
module SuperAdminLock {
  import opened Prelude
  import opened SuperAdmin

  type Txn = nat

  // Cleared: every check passed and the write is still to come.
  datatype Pc = Begun | Holding | Cleared | Ended(outcome: Outcome)
  datatype Transaction = Transaction(actor: Actor, op: Op, pc: Pc)
  datatype State = State(t: Tables, lock: Option<Txn>, txns: map<Txn, Transaction>)

  datatype Step =
    | Begin(x: Txn, actor: Actor, op: Op)
    | Acquire(x: Txn)                     // serialize_super_admin_mutation
    | Decide(x: Txn)                      // all reads and checks
    | Commit(x: Txn)                      // the write

  // The mutations that call serialize_super_admin_mutation.
  predicate Serialized(op: Op) {
    op.DeleteUser? || op.ToggleActive? || op.UpdateLicence? || op.ExpireLicence? || (op.UpdateUser? && op.role.Some?)
  }

  predicate MayDecide(locking: bool, tx: Transaction) {
    tx.pc == if locking && Serialized(tx.op) then Holding else Begun
  }

  predicate Enabled(locking: bool, s: State, step: Step) {
    match step
    case Begin(x, _, _) => x !in s.txns
    case Acquire(x) => locking && x in s.txns && s.txns[x].pc.Begun? && Serialized(s.txns[x].op) && s.lock.None?
    case Decide(x) => x in s.txns && MayDecide(locking, s.txns[x])
    case Commit(x) => x in s.txns && s.txns[x].pc.Cleared? && SuperAdmin.Enabled(s.t, s.txns[x].op)
  }

  function End(s: State, x: Txn, outcome: Outcome): State
    requires x in s.txns
  {
    s.(txns := s.txns[x := s.txns[x].(pc := Ended(outcome))], lock := if s.lock == Some(x) then None else s.lock)
  }

  function DecideStep(s: State, x: Txn): State
    requires x in s.txns
  {
    var tx := s.txns[x];
    if !Checks(s.t, tx.actor, tx.op).Done? then End(s, x, Checks(s.t, tx.actor, tx.op))
    else if Protected(s.t, tx.actor, tx.op) then End(s, x, LastSuperAdmin)
    else if Taken(tx.op) then End(s, x, EmailTaken)
    else s.(txns := s.txns[x := tx.(pc := Cleared)])
  }

  // The write finds its row gone when the checks no longer hold.
  function CommitStep(s: State, x: Txn): State
    requires x in s.txns
  {
    var tx := s.txns[x];
    if Checks(s.t, tx.actor, tx.op).Done? then End(s.(t := Written(s.t, tx.actor, tx.op)), x, Done)
    else End(s, x, NotFound)
  }

  function Next(locking: bool, s: State, step: Step): State
    requires Enabled(locking, s, step)
  {
    match step
    case Begin(x, actor, op) => s.(txns := s.txns[x := Transaction(actor, op, Begun)])
    case Acquire(x) => s.(txns := s.txns[x := s.txns[x].(pc := Holding)], lock := Some(x))
    case Decide(x) => DecideStep(s, x)
    case Commit(x) => CommitStep(s, x)
  }

  // --------------------------------------------------------------------- what others add

  // Nothing is taken away.
  predicate Grows(t: Tables, t': Tables) {
    && t'.now == t.now
    && (forall u :: u in t.users ==> u in t'.users && t'.users[u] == t.users[u])
    && (forall l :: l in t.licences ==> l in t'.licences && t'.licences[l] == t.licences[l])
  }

  lemma UnserializedGrows(t: Tables, actor: Actor, op: Op)
    requires !Serialized(op) && SuperAdmin.Enabled(t, op) && Checks(t, actor, op).Done?
    ensures Grows(t, Written(t, actor, op))
  {
  }

  lemma GrowingKeepsOperational(t: Tables, t': Tables)
    requires Grows(t, t')
    ensures Operational(t) <= Operational(t')
  {
    forall u | u in Operational(t) ensures u in Operational(t') {
      var l :| l in t.licences && t.licences[l].user == u && Current(t.licences[l], t.now);
      assert t'.licences[l] == t.licences[l];
    }
  }

  // A serialized mutation decided before the growth still writes the same rows.
  lemma GrowingKeepsWrite(t: Tables, t': Tables, actor: Actor, op: Op)
    requires Grows(t, t') && Serialized(op) && Checks(t, actor, op).Done?
    ensures Checks(t', actor, op).Done? && Grows(Written(t, actor, op), Written(t', actor, op))
  {
  }

  // -------------------------------------------------------------------------- invariant

  predicate TxnOk(s: State, x: Txn) {
    x in s.txns &&
    var tx := s.txns[x];
    && (Serialized(tx.op) && (tx.pc.Holding? || tx.pc.Cleared?) ==> s.lock == Some(x))
    && (Serialized(tx.op) && tx.pc.Cleared? ==>
        Checks(s.t, tx.actor, tx.op).Done? && Operational(Written(s.t, tx.actor, tx.op)) != {})
  }

  predicate Inv(s: State) {
    && Operational(s.t) != {}
    && forall x {:trigger TxnOk(s, x)} :: x in s.txns ==> TxnOk(s, x)
  }

  lemma DecisionIsSafe(t: Tables, actor: Actor, op: Op)
    requires Operational(t) != {} && Serialized(op) && Checks(t, actor, op).Done? && !Protected(t, actor, op)
    ensures Operational(Written(t, actor, op)) != {}
  {
    if op.UpdateLicence? || op.ExpireLicence? {
      LicenceRefusedIff(t, actor, op);
    } else {
      UserRefusedIff(t, actor, op);
    }
  }

  lemma CommitKeepsInv(s: State, x: Txn)
    requires Inv(s) && Enabled(true, s, Commit(x))
    ensures Inv(CommitStep(s, x))
  {
    hide Checks, Written, Operational;
    var s', tx := CommitStep(s, x), s.txns[x];
    assert TxnOk(s, x);
    if Checks(s.t, tx.actor, tx.op).Done? && !Serialized(tx.op) {
      UnserializedGrows(s.t, tx.actor, tx.op);
      GrowingKeepsOperational(s.t, s'.t);
    }
    forall y | y in s'.txns ensures TxnOk(s', y) {
      assert TxnOk(s, y);
      var other := s.txns[y];
      if y != x && Serialized(other.op) && other.pc.Cleared? && s'.t != s.t {
        GrowingKeepsWrite(s.t, s'.t, other.actor, other.op);
        GrowingKeepsOperational(Written(s.t, other.actor, other.op), Written(s'.t, other.actor, other.op));
      }
    }
  }

  lemma StepKeepsInv(s: State, step: Step)
    requires Inv(s) && Enabled(true, s, step)
    ensures Inv(Next(true, s, step))
  {
    hide Checks, Written, Operational, Protected;
    var s' := Next(true, s, step);
    match step {
      case Commit(x) => CommitKeepsInv(s, x);
      case Decide(x) =>
        var tx := s.txns[x];
        assert TxnOk(s, x);
        if Serialized(tx.op) && s'.txns[x].pc.Cleared? { DecisionIsSafe(s.t, tx.actor, tx.op); }
        forall y | y in s'.txns ensures TxnOk(s', y) { assert TxnOk(s, y); }
      case _ =>
        forall y | y in s'.txns ensures TxnOk(s', y) { if y in s.txns { assert TxnOk(s, y); } }
    }
  }

  // ------------------------------------------------------------------------- whole runs

  predicate Runnable(locking: bool, s: State, steps: seq<Step>)
    decreases |steps|
  {
    steps == [] || (Enabled(locking, s, steps[0]) && Runnable(locking, Next(locking, s, steps[0]), steps[1..]))
  }

  function Exec(locking: bool, s: State, steps: seq<Step>): State
    requires Runnable(locking, s, steps)
    decreases |steps|
  {
    if steps == [] then s else Exec(locking, Next(locking, s, steps[0]), steps[1..])
  }

  lemma {:induction false} RunKeepsInv(s: State, steps: seq<Step>)
    requires Inv(s) && Runnable(true, s, steps)
    ensures Inv(Exec(true, s, steps))
    decreases |steps|
  {
    if steps != [] {
      StepKeepsInv(s, steps[0]);
      hide Inv, Next;
      RunKeepsInv(Next(true, s, steps[0]), steps[1..]);
    }
  }

  /** With the advisory lock no interleaving of the transactions' checks and writes removes the
      last operational super-admin, although creations and other edits run beside it unlocked. */
  lemma LockKeepsSomeone(t: Tables, steps: seq<Step>)
    requires Operational(t) != {} && Runnable(true, State(t, None, map[]), steps)
    ensures Operational(Exec(true, State(t, None, map[]), steps).t) != {}
  {
    RunKeepsInv(State(t, None, map[]), steps);
    hide Runnable, Exec, Operational;
  }

  // ------------------------------------------------------------------- without the lock

  const Pair := map[1 := User(SuperAdmin, true, false), 2 := User(SuperAdmin, true, false)]
  const PairTables := Tables(Pair, map[1 := Licence(1, 0, 9, true), 2 := Licence(2, 0, 9, true)], 5)
  const First := Transaction(Actor(1, SuperAdmin), ToggleActive(2), Begun)
  const Second := Transaction(Actor(2, SuperAdmin), ToggleActive(1), Begun)

  lemma BothMayGo()
    ensures Operational(PairTables) == {1, 2}
    ensures Checks(PairTables, First.actor, First.op).Done? && !Protected(PairTables, First.actor, First.op)
    ensures Checks(PairTables, Second.actor, Second.op).Done? && !Protected(PairTables, Second.actor, Second.op)
  {
    assert PairTables.licences[1].user == 1 && PairTables.licences[2].user == 2;
    assert Operational(PairTables) == {1, 2};
    assert 1 in Operational(PairTables) - {2} && 2 in Operational(PairTables) - {1};
  }

  lemma Prepend(s: State, step: Step, rest: seq<Step>)
    requires Enabled(false, s, step) && Runnable(false, Next(false, s, step), rest)
    ensures Runnable(false, s, [step] + rest)
    ensures Exec(false, s, [step] + rest) == Exec(false, Next(false, s, step), rest)
  {
    assert ([step] + rest)[1..] == rest;
    hide Enabled, Next;
  }

  lemma CommitBoth(s: State)
    requires s == State(PairTables, None, map[1 := First.(pc := Cleared), 2 := Second.(pc := Cleared)])
    ensures Runnable(false, s, [Commit(1), Commit(2)]) && Operational(Exec(false, s, [Commit(1), Commit(2)]).t) == {}
  {
    var one := Next(false, s, Commit(1));
    assert one.t == PairTables.(users := Pair[2 := Pair[2].(active := false)]);
    assert one.txns[2] == Second.(pc := Cleared);
    var two := Next(false, one, Commit(2));
    assert !two.t.users[1].active && !two.t.users[2].active;
    assert [Commit(1)] + [Commit(2)] == [Commit(1), Commit(2)] && [Commit(2)] + [] == [Commit(2)];
    Prepend(one, Commit(2), []);
    Prepend(s, Commit(1), [Commit(2)]);
  }

  lemma DecideBoth(s: State)
    requires s == State(PairTables, None, map[1 := First, 2 := Second])
    ensures var steps := [Decide(1), Decide(2), Commit(1), Commit(2)];
      Runnable(false, s, steps) && Operational(Exec(false, s, steps).t) == {}
  {
    BothMayGo();
    hide Operational, Protected, Checks;
    var one := Next(false, s, Decide(1));
    assert one == s.(txns := s.txns[1 := First.(pc := Cleared)]);
    var two := Next(false, one, Decide(2));
    assert two == State(PairTables, None, map[1 := First.(pc := Cleared), 2 := Second.(pc := Cleared)]);
    CommitBoth(two);
    var rest := [Commit(1), Commit(2)];
    assert [Decide(2)] + rest == [Decide(2), Commit(1), Commit(2)];
    assert [Decide(1)] + [Decide(2), Commit(1), Commit(2)] == [Decide(1), Decide(2), Commit(1), Commit(2)];
    Prepend(one, Decide(2), rest);
    Prepend(s, Decide(1), [Decide(2), Commit(1), Commit(2)]);
  }

  /** Without it two super-admins who disable each other at once leave nobody operational. */
  lemma WithoutLockNobodyStays()
    ensures Operational(PairTables) == {1, 2}
    ensures exists steps :: Runnable(false, State(PairTables, None, map[]), steps)
              && Operational(Exec(false, State(PairTables, None, map[]), steps).t) == {}
  {
    BothMayGo();
    hide Operational, Checks, Protected;
    var start := State(PairTables, None, map[]);
    var rest := [Decide(1), Decide(2), Commit(1), Commit(2)];
    var one := Next(false, start, Begin(1, First.actor, First.op));
    var two := Next(false, one, Begin(2, Second.actor, Second.op));
    assert two == State(PairTables, None, map[1 := First, 2 := Second]);
    DecideBoth(two);
    Prepend(one, Begin(2, Second.actor, Second.op), rest);
    Prepend(start, Begin(1, First.actor, First.op), [Begin(2, Second.actor, Second.op)] + rest);
  }
}
