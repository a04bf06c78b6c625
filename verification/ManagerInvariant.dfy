/** What every step of the manager keeps, and the theorems about every interleaving. */
module ManagerInvariant {
  import opened Prelude
  import opened Manager

  // ---------------------------------------------------------------------- invariant

  ghost predicate TaskOk(s: State, t: TaskId) {
    t in s.tasks &&
    var task := s.tasks[t];
    && (LockOf(task.pc).Some? ==> task.camera in s.locks && s.locks[task.camera] == LockOf(task.pc).value)
    && (Inside(task.pc) ==> task.pc.lock in s.holder && s.holder[task.pc.lock] == t)
    && (WorkerOf(task.pc).Some? ==> task.camera in s.workers && s.workers[task.camera] == WorkerOf(task.pc).value)
    && (task.pc.Admit? ==> task.camera !in s.workers)
    && (task.pc.Removing? ==> HasEnded(s, task.pc.w))
    && (task.kind == Shut ==> ShutPc(task.pc))
  }

  // Where _shutdown_camera can be.
  predicate ShutPc(pc: Pc) {
    || pc.GetLock? || pc.Acquire? || pc.Lookup? || pc.Finished?
    || ((pc.Stopping? || pc.Removing?) && pc.next == ThenReturn)
  }

  ghost predicate TasksOk(s: State) { forall t {:trigger TaskOk(s, t)} :: t in s.tasks ==> TaskOk(s, t) }

  // Each lock object belongs to one camera and is held by nobody but who is inside its block.
  ghost predicate LocksOk(s: State) {
    && (forall c :: c in s.locks ==> s.locks[c] in s.usedLocks)
    && (forall c, d :: c in s.locks && d in s.locks && s.locks[c] == s.locks[d] ==> c == d)
    && (forall l {:trigger HolderOk(s, l)} :: l in s.holder ==> HolderOk(s, l))
  }

  ghost predicate HolderOk(s: State, l: LockId) {
    && l in s.usedLocks && l in s.holder && s.holder[l] in s.tasks
    && Inside(s.tasks[s.holder[l]].pc) && s.tasks[s.holder[l]].pc.lock == l
  }

  ghost predicate RegistryOk(s: State) {
    && (forall c {:trigger c in s.workers} :: c in s.workers ==>
          s.workers[c] in s.all && s.all[s.workers[c]].camera == c)
    && (forall w {:trigger Owned(s, w)} :: w in s.all && s.all[w].sup.Live? ==> Owned(s, w))
    && |s.workers| <= s.capacity
  }

  ghost predicate Owned(s: State, w: WorkerId) {
    w in s.all && s.all[w].camera in s.workers && s.workers[s.all[w].camera] == w
  }

  // Nothing is left of the camera but possibly a worker whose supervisor crashed.
  ghost predicate Cleared(s: State, c: Cam) { c in s.workers ==> HasCrashed(s, s.workers[c]) }

  ghost predicate ShutdownOk(s: State) {
    && (!s.shutdown.NotAsked? ==> s.closed)
    && (s.shutdown.Draining? ==>
          (forall c :: c in s.workers ==> c in s.shutdown.tasks) &&
          (forall c :: c in s.shutdown.tasks ==> ShutTaskOk(s, c, s.shutdown.tasks[c])))
    && (s.shutdown.Done? ==> forall c :: c in s.workers ==> Cleared(s, c))
  }

  ghost predicate ShutTaskOk(s: State, c: Cam, t: TaskId) {
    t in s.tasks && s.tasks[t].kind == Shut && s.tasks[t].camera == c
    && (s.tasks[t].pc.Finished? ==> Cleared(s, c))
  }

  ghost predicate Inv(s: State) { TasksOk(s) && LocksOk(s) && RegistryOk(s) && ShutdownOk(s) }

  // Two tasks inside the blocks of one camera are one task.
  lemma OneInside(s: State, t: TaskId, u: TaskId)
    requires Inv(s) && t in s.tasks && u in s.tasks && s.tasks[t].camera == s.tasks[u].camera
    requires Inside(s.tasks[t].pc) && Inside(s.tasks[u].pc)
    ensures t == u
  {
    assert TaskOk(s, t) && TaskOk(s, u);
  }

  // --------------------------------------------------------------------- kinds of step

  // Only t moves, inside its block, and the registry keeps what other cameras have.
  ghost predicate MovesInside(s: State, s': State, t: TaskId) {
    && t in s.tasks && t in s'.tasks && s'.tasks == s.tasks[t := s'.tasks[t]]
    && s'.tasks[t].camera == s.tasks[t].camera && s'.tasks[t].kind == s.tasks[t].kind
    && Inside(s.tasks[t].pc) && Inside(s'.tasks[t].pc) && s'.tasks[t].pc.lock == s.tasks[t].pc.lock
    && s'.locks == s.locks && s'.usedLocks == s.usedLocks && s'.holder == s.holder
    && s'.closed == s.closed && s'.shutdown == s.shutdown && s'.capacity == s.capacity
  }

  // Only t moves, out of its block.
  ghost predicate Leaves(s: State, s': State, t: TaskId) {
    && t in s.tasks && t in s'.tasks && s'.tasks == s.tasks[t := s'.tasks[t]]
    && s'.tasks[t].camera == s.tasks[t].camera && s'.tasks[t].kind == s.tasks[t].kind
    && s'.tasks[t].pc.Finished?
    && s'.holder == (if Inside(s.tasks[t].pc) then s.holder - {s.tasks[t].pc.lock} else s.holder)
    && s'.locks == s.locks && s'.usedLocks == s.usedLocks
    && s'.closed == s.closed && s'.shutdown == s.shutdown && s'.capacity == s.capacity
  }

  // The registry changes at most at c, and workers are only added to the record.
  ghost predicate OnlyCamera(s: State, s': State, c: Cam) {
    && (forall d :: d != c ==>
          (d in s'.workers <==> d in s.workers) && (d in s.workers ==> s'.workers[d] == s.workers[d]))
    && (forall w :: w in s.all ==> w in s'.all && s'.all[w] == s.all[w])
  }

  // ------------------------------------------------------------ what carries each part over

  // Task u is as before, and so is what it relies on.
  lemma TaskCarried(s: State, s': State, u: TaskId)
    requires TaskOk(s, u) && u in s'.tasks && s'.tasks[u] == s.tasks[u]
    requires LockOf(s.tasks[u].pc).Some? ==> SameLock(s, s', s.tasks[u].camera)
    requires Inside(s.tasks[u].pc) ==> SameWorker(s, s', s.tasks[u].camera) && SameHolder(s, s', s.tasks[u].pc.lock)
    requires forall w {:trigger HasEnded(s', w)} :: HasEnded(s, w) ==> HasEnded(s', w)
    ensures TaskOk(s', u)
  {
  }

  ghost predicate SameLock(s: State, s': State, c: Cam) {
    c in s.locks ==> c in s'.locks && s'.locks[c] == s.locks[c]
  }

  ghost predicate SameWorker(s: State, s': State, c: Cam) {
    (c in s'.workers <==> c in s.workers) && (c in s.workers ==> s'.workers[c] == s.workers[c])
  }

  ghost predicate SameHolder(s: State, s': State, l: LockId) {
    l in s.holder ==> l in s'.holder && s'.holder[l] == s.holder[l]
  }

  lemma LocksCarried(s: State, s': State)
    requires LocksOk(s) && s'.locks == s.locks && s'.usedLocks == s.usedLocks
    requires forall l {:trigger SameHolder(s, s', l)} :: l in s'.holder ==> l in s.holder && SameHolder(s, s', l)
    requires forall l {:trigger HolderOk(s', l)} :: l in s'.holder && HolderOk(s, l) ==> HolderOk(s', l)
    ensures LocksOk(s')
  {
    forall l | l in s'.holder ensures HolderOk(s', l) {
      assert SameHolder(s, s', l);
      assert HolderOk(s, l);
    }
  }

  lemma RegistryCarried(s: State, s': State)
    requires RegistryOk(s) && s'.workers == s.workers && s'.all == s.all && s'.capacity == s.capacity
    ensures RegistryOk(s')
  {
    forall w | w in s'.all && s'.all[w].sup.Live? ensures Owned(s', w) { assert Owned(s, w); }
  }

  // A task of the shutdown never ends before its camera is cleared.
  ghost predicate ShutKept(s: State, s': State, t: TaskId) {
    && t in s.tasks && t in s'.tasks && s'.tasks[t].kind == s.tasks[t].kind && s'.tasks[t].camera == s.tasks[t].camera
    && (s.tasks[t].kind == Shut && s'.tasks[t].pc.Finished? ==>
          s.tasks[t].pc.Finished? || Cleared(s', s.tasks[t].camera))
  }

  // With the registry at most shrinking after admission closed, the drain goes on.
  lemma ShutdownCarried(s: State, s': State)
    requires ShutdownOk(s) && s'.shutdown == s.shutdown && (s.closed ==> s'.closed)
    requires s.closed ==> forall c {:trigger NotReplaced(s, s', c)} :: NotReplaced(s, s', c)
    requires forall w {:trigger HasCrashed(s', w)} :: HasCrashed(s, w) ==> HasCrashed(s', w)
    requires forall t {:trigger ShutKept(s, s', t)} :: t in s.tasks ==> ShutKept(s, s', t)
    ensures ShutdownOk(s')
  {
    if s.shutdown.Draining? {
      forall c | c in s'.workers ensures c in s.shutdown.tasks { assert NotReplaced(s, s', c); }
      forall c | c in s.shutdown.tasks ensures ShutTaskOk(s', c, s.shutdown.tasks[c]) {
        var t := s.shutdown.tasks[c];
        assert ShutTaskOk(s, c, t);
        assert ShutKept(s, s', t) && NotReplaced(s, s', c);
      }
    }
    if s.shutdown.Done? {
      forall c | c in s'.workers ensures Cleared(s', c) { assert NotReplaced(s, s', c) && Cleared(s, c); }
    }
  }

  ghost predicate NotReplaced(s: State, s': State, c: Cam) {
    c in s'.workers ==> c in s.workers && s'.workers[c] == s.workers[c]
  }

  lemma InsideKeepsTasks(s: State, s': State, t: TaskId)
    requires Inv(s) && MovesInside(s, s', t) && OnlyCamera(s, s', s.tasks[t].camera) && TaskOk(s', t)
    ensures TasksOk(s')
  {
    hide LocksOk, RegistryOk, ShutdownOk;
    forall u | u in s'.tasks ensures TaskOk(s', u) {
      if u != t {
        assert TaskOk(s, u);
        if s.tasks[u].camera == s.tasks[t].camera && Inside(s.tasks[u].pc) {
          OneInside(s, t, u);
          assert false;
        }
        TaskCarried(s, s', u);
      }
    }
  }

  lemma InsideKeepsLocks(s: State, s': State, t: TaskId)
    requires LocksOk(s) && MovesInside(s, s', t)
    ensures LocksOk(s')
  {
    LocksCarried(s, s');
  }

  lemma LeavingKeepsTasks(s: State, s': State, t: TaskId)
    requires Inv(s) && Leaves(s, s', t) && OnlyCamera(s, s', s.tasks[t].camera)
    requires !Inside(s.tasks[t].pc) ==> s'.workers == s.workers
    ensures TasksOk(s')
  {
    hide LocksOk, RegistryOk, ShutdownOk;
    assert TaskOk(s, t);
    forall u | u in s'.tasks ensures TaskOk(s', u) {
      if u != t {
        assert TaskOk(s, u);
        if Inside(s.tasks[u].pc) && Inside(s.tasks[t].pc) && s.tasks[u].camera == s.tasks[t].camera {
          OneInside(s, t, u);
          assert false;
        }
        TaskCarried(s, s', u);
      }
    }
  }

  lemma LeavingKeepsLocks(s: State, s': State, t: TaskId)
    requires LocksOk(s) && TaskOk(s, t) && Leaves(s, s', t)
    ensures LocksOk(s')
  {
    forall l | l in s'.holder && HolderOk(s, l) ensures HolderOk(s', l) { }
    LocksCarried(s, s');
  }

  lemma MovingKeepsShutdown(s: State, s': State, t: TaskId)
    requires ShutdownOk(s) && (MovesInside(s, s', t) || Leaves(s, s', t)) && OnlyCamera(s, s', s.tasks[t].camera)
    requires s.closed ==> NotReplaced(s, s', s.tasks[t].camera)
    requires s.tasks[t].kind == Shut && s'.tasks[t].pc.Finished? ==> Cleared(s', s.tasks[t].camera)
    ensures ShutdownOk(s')
  {
    hide ShutdownOk;
    forall u | u in s.tasks ensures ShutKept(s, s', u) { }
    if s.closed { forall c ensures NotReplaced(s, s', c) { } }
    ShutdownCarried(s, s');
  }

  // ------------------------------------------------------------------- one lemma per step

  lemma KeptMoving(s: State, t: TaskId, pc: Pc)
    requires Inv(s) && t in s.tasks && Inside(s.tasks[t].pc) && Inside(pc) && pc.lock == s.tasks[t].pc.lock
    requires TaskOk(At(s, t, pc), t)
    ensures Inv(At(s, t, pc))
  {
    hide TasksOk, LocksOk, RegistryOk, ShutdownOk, TaskOk;
    var s' := At(s, t, pc);
    InsideKeepsTasks(s, s', t);
    InsideKeepsLocks(s, s', t);
    RegistryCarried(s, s');
    MovingKeepsShutdown(s, s', t);
  }

  lemma KeptFinishing(s: State, t: TaskId, outcome: Outcome)
    requires Inv(s) && t in s.tasks && Unfinished(s.tasks[t])
    requires s.tasks[t].kind == Shut ==> Cleared(s, s.tasks[t].camera)
    ensures Inv(Finish(s, t, outcome))
  {
    assert TaskOk(s, t);
    var s' := Finish(s, t, outcome);
    FinishLeaves(s, t, outcome);
    hide TasksOk, LocksOk, RegistryOk, ShutdownOk, TaskOk, Leaves, Finish, OnlyCamera;
    LeavingKeepsTasks(s, s', t);
    LeavingKeepsLocks(s, s', t);
    RegistryCarried(s, s');
    MovingKeepsShutdown(s, s', t);
  }

  lemma FinishLeaves(s: State, t: TaskId, outcome: Outcome)
    requires t in s.tasks
    ensures var s' := Finish(s, t, outcome);
      && Leaves(s, s', t) && OnlyCamera(s, s', s.tasks[t].camera)
      && s'.workers == s.workers && s'.all == s.all && s'.capacity == s.capacity
      && Cleared(s', s.tasks[t].camera) == Cleared(s, s.tasks[t].camera)
      && NotReplaced(s, s', s.tasks[t].camera)
  {
  }

  lemma KeptSpawn(s: State, step: Step)
    requires Inv(s) && Enabled(s, step) && step.Spawn?
    ensures Inv(Next(s, step))
  {
    hide LocksOk, RegistryOk, ShutdownOk;
    var s' := Next(s, step);
    forall u | u in s'.tasks ensures TaskOk(s', u) {
      if u != step.t { assert TaskOk(s, u); TaskCarried(s, s', u); }
    }
    LocksCarried(s, s');
    RegistryCarried(s, s');
    ShutdownCarried(s, s');
  }

  // The camera's lock is found, or is a new object nobody used before.
  ghost predicate GetsLock(s: State, s': State, t: TaskId) {
    && t in s.tasks && t in s'.tasks && s'.tasks == s.tasks[t := s'.tasks[t]]
    && s.tasks[t].pc.GetLock? && s'.tasks[t].pc.Acquire? && s'.tasks[t] == s.tasks[t].(pc := s'.tasks[t].pc)
    && s.tasks[t].camera in s'.locks && s'.locks[s.tasks[t].camera] == s'.tasks[t].pc.lock
    && s' == s.(tasks := s'.tasks, locks := s'.locks, usedLocks := s'.usedLocks)
    && s.usedLocks <= s'.usedLocks
    && (s'.locks == s.locks || FreshLock(s, s', s.tasks[t].camera, s'.tasks[t].pc.lock))
  }

  ghost predicate FreshLock(s: State, s': State, c: Cam, l: LockId) {
    c !in s.locks && l !in s.usedLocks && l in s'.usedLocks && s'.locks == s.locks[c := l]
  }

  lemma KeptGetLock(s: State, step: Step)
    requires Inv(s) && Enabled(s, step) && step.DoGetLock?
    ensures Inv(Next(s, step))
  {
    var s' := Next(s, step);
    assert GetsLock(s, s', step.t);
    hide TasksOk, LocksOk, RegistryOk, ShutdownOk, Next, Enabled;
    GetLockKeepsTasks(s, s', step.t);
    GetLockKeepsLocks(s, s', step.t);
    RegistryCarried(s, s');
    GetLockKeepsShutdown(s, s', step.t);
  }

  lemma GetLockKeepsTasks(s: State, s': State, t: TaskId)
    requires TasksOk(s) && GetsLock(s, s', t)
    ensures TasksOk(s')
  {
    forall u | u in s'.tasks ensures TaskOk(s', u) {
      if u != t {
        assert TaskOk(s, u);
        TaskCarried(s, s', u);
      }
    }
  }

  lemma GetLockKeepsLocks(s: State, s': State, t: TaskId)
    requires LocksOk(s) && GetsLock(s, s', t)
    ensures LocksOk(s')
  {
    forall l | l in s'.holder ensures HolderOk(s', l) { assert HolderOk(s, l); }
  }

  lemma GetLockKeepsShutdown(s: State, s': State, t: TaskId)
    requires ShutdownOk(s) && GetsLock(s, s', t)
    ensures ShutdownOk(s')
  {
    hide ShutdownOk;
    forall u | u in s.tasks ensures ShutKept(s, s', u) { }
    ShutdownCarried(s, s');
  }

  lemma KeptAcquire(s: State, step: Step)
    requires Inv(s) && Enabled(s, step) && step.DoAcquire?
    ensures Inv(Next(s, step))
  {
    hide RegistryOk, ShutdownOk;
    var s' := Next(s, step);
    assert TaskOk(s, step.t);
    forall u | u in s'.tasks ensures TaskOk(s', u) {
      if u != step.t { assert TaskOk(s, u); TaskCarried(s, s', u); }
    }
    assert TasksOk(s');
    forall l | l in s'.holder ensures HolderOk(s', l) {
      if l in s.holder { assert HolderOk(s, l); }
    }
    hide TasksOk, TaskOk;
    RegistryCarried(s, s');
    ShutdownCarried(s, s');
  }

  lemma KeptLookup(s: State, step: Step)
    requires Inv(s) && Enabled(s, step) && step.DoLookup?
    ensures Inv(Next(s, step))
  {
    var t := step.t;
    var task := s.tasks[t];
    assert TaskOk(s, t);
    if task.camera !in s.workers {
      if task.kind == Start || task.kind == Restart {
        KeptMoving(s, t, Admit(task.pc.lock));
      } else {
        KeptFinishing(s, t, Returned);
      }
    } else if task.kind == Start && step.running {
      KeptFinishing(s, t, Returned);
    } else {
      KeptMoving(s, t, Stopping(task.pc.lock, s.workers[task.camera],
                                if task.kind == Start || task.kind == Restart then ThenAdmit else ThenReturn));
    }
  }

  lemma KeptStopped(s: State, step: Step)
    requires Inv(s) && Enabled(s, step) && (step.DoStopped? || step.DoWaited?)
    ensures Inv(Next(s, step))
  {
    var t := step.t;
    var pc := s.tasks[t].pc;
    assert TaskOk(s, t);
    if HasCrashed(s, pc.w) {
      KeptFinishing(s, t, Raised);
    } else {
      KeptMoving(s, t, Removing(pc.lock, pc.w, if step.DoStopped? then pc.next else ThenRaise));
    }
  }

  lemma SmallerMap<A, B>(m: map<A, B>, a: A)
    ensures |m - {a}| <= |m| && (a in m ==> |m - {a}| == |m| - 1)
  {
    assert (m - {a}).Keys == m.Keys - {a};
  }

  lemma RemovalKeepsRegistry(s: State, s': State, c: Cam)
    requires RegistryOk(s) && s'.workers == s.workers - {c} && s'.all == s.all && s'.capacity == s.capacity
    requires c in s.workers ==> HasEnded(s, s.workers[c])
    ensures RegistryOk(s')
  {
    SmallerMap(s.workers, c);
    forall w | w in s'.all && s'.all[w].sup.Live? ensures Owned(s', w) { assert Owned(s, w); }
  }

  lemma KeptRemove(s: State, step: Step)
    requires Inv(s) && Enabled(s, step) && step.DoRemove?
    ensures Inv(Next(s, step))
  {
    var t := step.t;
    var s' := Next(s, step);
    assert TaskOk(s, t);
    RemoveMoves(s, step);
    hide TasksOk, LocksOk, RegistryOk, ShutdownOk, Leaves, MovesInside, OnlyCamera, Next, NotReplaced, Enabled;
    RemovalKeepsRegistry(s, s', s.tasks[t].camera);
    if Leaves(s, s', t) {
      LeavingKeepsTasks(s, s', t);
      LeavingKeepsLocks(s, s', t);
    } else {
      InsideKeepsTasks(s, s', t);
      InsideKeepsLocks(s, s', t);
    }
    MovingKeepsShutdown(s, s', t);
  }

  lemma RemoveMoves(s: State, step: Step)
    requires Enabled(s, step) && step.DoRemove? && TaskOk(s, step.t)
    ensures var s' := Next(s, step); var t := step.t; var c := s.tasks[t].camera;
      && s'.workers == s.workers - {c} && s'.all == s.all && s'.capacity == s.capacity
      && OnlyCamera(s, s', c) && NotReplaced(s, s', c) && Cleared(s', c)
      && t in s'.tasks && (Leaves(s, s', t) || (MovesInside(s, s', t) && TaskOk(s', t)))
  {
    var s' := Next(s, step);
    var t := step.t;
    assert s'.workers == s.workers - {s.tasks[t].camera};
  }

  lemma AdmissionKeepsRegistry(s: State, s': State, c: Cam, w: WorkerId, d: Def)
    requires RegistryOk(s) && c !in s.workers && w !in s.all && |s.workers| < s.capacity
    requires s'.workers == s.workers[c := w] && s'.all == s.all[w := Worker(c, d, Live)] && s'.capacity == s.capacity
    ensures RegistryOk(s')
  {
    assert s'.workers.Keys == s.workers.Keys + {c};
    forall v | v in s'.all && s'.all[v].sup.Live? ensures Owned(s', v) {
      if v != w { assert Owned(s, v); }
    }
  }

  lemma KeptAdmit(s: State, step: Step)
    requires Inv(s) && Enabled(s, step) && step.DoAdmit?
    ensures Inv(Next(s, step))
  {
    var t := step.t;
    assert TaskOk(s, t);
    hide TasksOk, LocksOk, RegistryOk, ShutdownOk;
    if s.closed || |s.workers| >= s.capacity {
      KeptFinishing(s, t, if s.closed then Raised else NoCapacity);
    } else {
      AdmittedKeeps(s, Next(s, step), t, step.newWorker);
    }
  }

  lemma AdmittedKeeps(s: State, s': State, t: TaskId, w: WorkerId)
    requires Inv(s) && t in s.tasks && s.tasks[t].pc.Admit? && !s.closed && |s.workers| < s.capacity && w !in s.all
    requires s' == AdmitStep(s, t, w)
    ensures Inv(s')
  {
    assert TaskOk(s, t);
    assert MovesInside(s, s', t) && OnlyCamera(s, s', s.tasks[t].camera) && TaskOk(s', t);
    AdmissionKeepsRegistry(s, s', s.tasks[t].camera, w, s.tasks[t].definition);
    hide TasksOk, LocksOk, RegistryOk, ShutdownOk, TaskOk, MovesInside, OnlyCamera, AdmitStep;
    InsideKeepsTasks(s, s', t);
    InsideKeepsLocks(s, s', t);
    MovingKeepsShutdown(s, s', t);
  }

  lemma KeptStarted(s: State, step: Step)
    requires Inv(s) && Enabled(s, step) && (step.DoStarted? || step.DoUndone? || step.DoCheck?)
    ensures Inv(Next(s, step))
  {
    var t := step.t;
    var pc := s.tasks[t].pc;
    assert TaskOk(s, t);
    if step.DoCheck? && !s.closed {
      KeptFinishing(s, t, Returned);
    } else {
      KeptMoving(s, t, if step.DoCheck? then Stopping(pc.lock, pc.w, ThenRaise)
                       else if step.DoStarted? && step.ok then Check(pc.lock, pc.w) else Waiting(pc.lock, pc.w));
    }
  }

  lemma KeptCancel(s: State, step: Step)
    requires Inv(s) && Enabled(s, step) && step.Cancel?
    ensures Inv(Next(s, step))
  {
    var t := step.t;
    var pc := s.tasks[t].pc;
    assert TaskOk(s, t);
    if pc.Starting? { KeptMoving(s, t, Undoing(pc.lock, pc.w)); }
    else if pc.Undoing? { KeptMoving(s, t, Waiting(pc.lock, pc.w)); }
    else { KeptFinishing(s, t, Raised); }
  }

  lemma KeptEnding(s: State, step: Step)
    requires Inv(s) && Enabled(s, step) && step.SupervisorEnds?
    ensures Inv(Next(s, step))
  {
    hide LocksOk, ShutdownOk;
    var s' := Next(s, step);
    forall u | u in s'.tasks ensures TaskOk(s', u) { assert TaskOk(s, u); TaskCarried(s, s', u); }
    assert TasksOk(s');
    hide TasksOk, TaskOk;
    forall w | w in s'.all && s'.all[w].sup.Live? ensures Owned(s', w) { assert Owned(s, w); }
    assert RegistryOk(s');
    LocksCarried(s, s');
    ShutdownCarried(s, s');
  }

  lemma KeptCollect(s: State, step: Step)
    requires Inv(s) && Enabled(s, step) && step.Collect?
    ensures Inv(Next(s, step))
  {
    hide RegistryOk, ShutdownOk;
    var s' := Next(s, step);
    CollectKeepsTasks(s, s', step.camera);
    hide TasksOk, TaskOk;
    forall l | l in s'.holder ensures HolderOk(s', l) { assert HolderOk(s, l); }
    assert LocksOk(s');
    hide LocksOk;
    RegistryCarried(s, s');
    ShutdownCarried(s, s');
  }

  lemma CollectKeepsTasks(s: State, s': State, c: Cam)
    requires TasksOk(s) && c in s.locks && s' == s.(locks := s.locks - {c})
    requires forall t :: t in s.tasks ==> LockOf(s.tasks[t].pc) != Some(s.locks[c])
    ensures TasksOk(s')
  {
    forall u | u in s'.tasks ensures TaskOk(s', u) { assert TaskOk(s, u); TaskCarried(s, s', u); }
  }

  lemma SameTasksCarried(s: State, s': State)
    requires Inv(s) && s'.tasks == s.tasks && s'.locks == s.locks && s'.usedLocks == s.usedLocks
    requires s'.holder == s.holder
    requires s'.workers == s.workers && s'.all == s.all && s'.capacity == s.capacity
    ensures TasksOk(s') && LocksOk(s') && RegistryOk(s')
  {
    hide LocksOk, RegistryOk, ShutdownOk;
    forall u | u in s'.tasks ensures TaskOk(s', u) { assert TaskOk(s, u); TaskCarried(s, s', u); }
    LocksCarried(s, s');
    RegistryCarried(s, s');
  }

  lemma KeptOutside(s: State, step: Step)
    requires Inv(s) && Enabled(s, step) && (step.AskShutdown? || step.ShutdownEnds?)
    ensures Inv(Next(s, step))
  {
    hide TasksOk, LocksOk, RegistryOk;
    var s' := Next(s, step);
    SameTasksCarried(s, s');
    if s.shutdown.Draining? {
      forall c | c in s.shutdown.tasks ensures ShutTaskOk(s', c, s.shutdown.tasks[c]) {
        assert ShutTaskOk(s, c, s.shutdown.tasks[c]);
      }
    }
    if s'.shutdown.Done? { forall c | c in s'.workers ensures Cleared(s', c) { assert Cleared(s, c); } }
  }

  // One shutdown task is added per registered camera.
  ghost predicate Snapped(s: State, s': State, ts: map<Cam, TaskId>) {
    && s' == s.(tasks := s'.tasks, shutdown := Draining(ts)) && s.shutdown.Asked? && ts.Keys == s.workers.Keys
    && (forall u :: u in s.tasks ==> u in s'.tasks && s'.tasks[u] == s.tasks[u])
    && (forall u :: u in s'.tasks && u !in s.tasks ==> s'.tasks[u].pc.GetLock?)
    && (forall c :: c in ts ==> ts[c] in s'.tasks && s'.tasks[ts[c]] == Task(Shut, c, 0, GetLock))
  }

  lemma SnapshotSnaps(s: State, step: Step)
    requires Enabled(s, step) && step.Snapshot?
    ensures Snapped(s, Next(s, step), step.tasks)
  {
    forall c | c in step.tasks
      ensures step.tasks[c] in Next(s, step).tasks && Next(s, step).tasks[step.tasks[c]] == Task(Shut, c, 0, GetLock)
    {
      assert step.tasks[c] in step.tasks.Values;
    }
  }

  lemma SnapshotKeepsTasks(s: State, s': State, ts: map<Cam, TaskId>)
    requires TasksOk(s) && Snapped(s, s', ts)
    ensures TasksOk(s')
  {
    forall u | u in s'.tasks ensures TaskOk(s', u) {
      if u in s.tasks { assert TaskOk(s, u); TaskCarried(s, s', u); }
    }
  }

  lemma SnapshotKeepsLocks(s: State, s': State, ts: map<Cam, TaskId>)
    requires LocksOk(s) && Snapped(s, s', ts)
    ensures LocksOk(s')
  {
    forall l | l in s'.holder && HolderOk(s, l) ensures HolderOk(s', l) { }
    LocksCarried(s, s');
  }

  lemma SnapshotKeepsShutdown(s: State, s': State, ts: map<Cam, TaskId>)
    requires ShutdownOk(s) && Snapped(s, s', ts)
    ensures ShutdownOk(s')
  {
    forall c | c in ts ensures ShutTaskOk(s', c, ts[c]) { }
  }

  lemma KeptSnapshot(s: State, step: Step)
    requires Inv(s) && Enabled(s, step) && step.Snapshot?
    ensures Inv(Next(s, step))
  {
    var s' := Next(s, step);
    SnapshotSnaps(s, step);
    assert s'.workers == s.workers && s'.all == s.all && s'.capacity == s.capacity;
    hide TasksOk, LocksOk, RegistryOk, ShutdownOk, Snapped, Next, Enabled;
    SnapshotKeepsTasks(s, s', step.tasks);
    SnapshotKeepsLocks(s, s', step.tasks);
    SnapshotKeepsShutdown(s, s', step.tasks);
    RegistryCarried(s, s');
  }

  /** Every step keeps the invariant. */
  lemma StepKeepsInv(s: State, step: Step)
    requires Inv(s) && Enabled(s, step)
    ensures Inv(Next(s, step))
  {
    match step {
      case Spawn(_, _, _, _) => KeptSpawn(s, step);
      case DoGetLock(_, _) => KeptGetLock(s, step);
      case DoAcquire(_) => KeptAcquire(s, step);
      case DoLookup(_, _) => KeptLookup(s, step);
      case DoStopped(_) => KeptStopped(s, step);
      case DoRemove(_, _) => KeptRemove(s, step);
      case DoAdmit(_, _) => KeptAdmit(s, step);
      case DoStarted(_, _) => KeptStarted(s, step);
      case DoUndone(_) => KeptStarted(s, step);
      case DoWaited(_) => KeptStopped(s, step);
      case DoCheck(_) => KeptStarted(s, step);
      case Cancel(_) => KeptCancel(s, step);
      case SupervisorEnds(_, _) => KeptEnding(s, step);
      case Collect(_) => KeptCollect(s, step);
      case AskShutdown => KeptOutside(s, step);
      case Snapshot(_) => KeptSnapshot(s, step);
      case ShutdownEnds => KeptOutside(s, step);
    }
  }

  // ---------------------------------------------------------------------- whole runs

  // Only t moves, and what it changes in the registry concerns its own camera.
  ghost predicate Local(s: State, s': State, t: TaskId) {
    && t in s.tasks && t in s'.tasks && s'.tasks == s.tasks[t := s.tasks[t].(pc := s'.tasks[t].pc)]
    && s'.capacity == s.capacity && s'.closed == s.closed && s'.shutdown == s.shutdown
    && (forall d {:trigger SameWorker(s, s', d)} :: d != s.tasks[t].camera ==> SameWorker(s, s', d))
    && (forall w :: w in s.all ==> w in s'.all && s'.all[w] == s.all[w])
  }

  predicate IsTaskStep(step: Step) {
    && !step.Spawn? && !step.SupervisorEnds? && !step.Collect?
    && !step.AskShutdown? && !step.Snapshot? && !step.ShutdownEnds?
  }

  // Of all steps only an admission adds to the registry and only a removal takes from it.
  lemma TaskStepIsLocal(s: State, step: Step)
    requires Enabled(s, step) && IsTaskStep(step)
    ensures Local(s, Next(s, step), step.t)
    ensures !step.DoAdmit? && !step.DoRemove? ==> Next(s, step).workers == s.workers
    ensures step.DoAdmit? && s.closed ==> Next(s, step).workers == s.workers
  {
    match step {
      case DoLookup(t, r) => LookupIsLocal(s, t, r);
      case DoRemove(t, f) => RemoveIsLocal(s, t, f);
      case DoAdmit(t, w) => AdmitIsLocal(s, t, w);
      case Cancel(t) => CancelIsLocal(s, t);
      case DoGetLock(t, l) =>
      case DoAcquire(t) =>
      case _ => SimpleIsLocal(s, step);
    }
  }

  lemma FinishIsLocal(s: State, t: TaskId, outcome: Outcome)
    requires t in s.tasks
    ensures Local(s, Finish(s, t, outcome), t) && Finish(s, t, outcome).workers == s.workers
    ensures Finish(s, t, outcome).tasks[t].pc == Finished(outcome)
  {
  }

  lemma AtIsLocal(s: State, t: TaskId, pc: Pc)
    requires t in s.tasks
    ensures Local(s, At(s, t, pc), t) && At(s, t, pc).workers == s.workers && At(s, t, pc).tasks[t].pc == pc
  {
  }

  lemma SimpleIsLocal(s: State, step: Step)
    requires Enabled(s, step)
    requires (step.DoStopped? || step.DoStarted? || step.DoUndone? || step.DoWaited? || step.DoCheck?)
    ensures Local(s, Next(s, step), step.t) && Next(s, step).workers == s.workers
  {
    FinishIsLocal(s, step.t, Raised);
    FinishIsLocal(s, step.t, Returned);
    AtIsLocal(s, step.t, Next(s, step).tasks[step.t].pc);
    hide Finish, At, Local;
  }

  lemma LookupIsLocal(s: State, t: TaskId, running: bool)
    requires t in s.tasks && s.tasks[t].pc.Lookup?
    ensures Local(s, LookupStep(s, t, running), t) && LookupStep(s, t, running).workers == s.workers
  {
    FinishIsLocal(s, t, Returned);
    AtIsLocal(s, t, LookupStep(s, t, running).tasks[t].pc);
    hide Finish, At, Local;
  }

  lemma RemoveIsLocal(s: State, t: TaskId, failures: bool)
    requires t in s.tasks && s.tasks[t].pc.Removing?
    ensures Local(s, RemoveStep(s, t, failures), t)
  {
    var task := s.tasks[t];
    var s' := if task.camera in s.workers && s.workers[task.camera] == task.pc.w
              then s.(workers := s.workers - {task.camera}) else s;
    var r := RemoveStep(s, t, failures);
    FinishIsLocal(s', t, Returned);
    FinishIsLocal(s', t, Raised);
    AtIsLocal(s', t, r.tasks[t].pc);
    hide Local, Finish, At;
    DropIsLocal(s, s', r, t);
  }

  // A step that is local after its camera was dropped is local.
  lemma DropIsLocal(s: State, s': State, r: State, t: TaskId)
    requires t in s.tasks && Local(s', r, t) && s' == s.(workers := s'.workers)
    requires s'.workers == s.workers || s'.workers == s.workers - {s.tasks[t].camera}
    ensures Local(s, r, t)
  {
    forall d | d != s.tasks[t].camera ensures SameWorker(s, r, d) { assert SameWorker(s', r, d); }
  }

  lemma AdmitIsLocal(s: State, t: TaskId, w: WorkerId)
    requires t in s.tasks && s.tasks[t].pc.Admit? && w !in s.all
    ensures Local(s, AdmitStep(s, t, w), t) && (s.closed ==> AdmitStep(s, t, w).workers == s.workers)
  {
    FinishIsLocal(s, t, Raised);
    FinishIsLocal(s, t, NoCapacity);
    if !s.closed && |s.workers| < s.capacity { AdmittedIsLocal(s, t, w); }
    hide Finish, At, Local;
  }

  lemma AdmittedIsLocal(s: State, t: TaskId, w: WorkerId)
    requires t in s.tasks && s.tasks[t].pc.Admit? && w !in s.all && !s.closed && |s.workers| < s.capacity
    ensures Local(s, AdmitStep(s, t, w), t)
  {
    hide Finish;
  }

  lemma CancelIsLocal(s: State, t: TaskId)
    requires t in s.tasks
    ensures Local(s, CancelStep(s, t), t) && CancelStep(s, t).workers == s.workers
  {
    FinishIsLocal(s, t, Raised);
    hide Finish;
  }

  lemma StepFrame(s: State, step: Step)
    requires Enabled(s, step)
    ensures Next(s, step).capacity == s.capacity
    ensures s.shutdown.Done? ==> Next(s, step).shutdown.Done?
    ensures !step.DoAdmit? && !step.DoRemove? ==> Next(s, step).workers == s.workers
  {
    if IsTaskStep(step) {
      TaskStepIsLocal(s, step);
      hide Next;
    }
  }

  ghost predicate Runnable(s: State, steps: seq<Step>)
    decreases |steps|
  {
    steps == [] || (Enabled(s, steps[0]) && Runnable(Next(s, steps[0]), steps[1..]))
  }

  ghost function Exec(s: State, steps: seq<Step>): State
    requires Runnable(s, steps)
    decreases |steps|
  {
    if steps == [] then s else Exec(Next(s, steps[0]), steps[1..])
  }

  lemma {:induction false} RunKeepsInv(s: State, steps: seq<Step>)
    requires Inv(s) && Runnable(s, steps)
    ensures Inv(Exec(s, steps))
    decreases |steps|
  {
    if steps != [] {
      StepKeepsInv(s, steps[0]);
      RunKeepsInv(Next(s, steps[0]), steps[1..]);
    }
  }

  lemma InitialInv(capacity: nat)
    ensures Inv(Initial(capacity))
  {
  }

  ghost function LiveWorkers(s: State): set<WorkerId> {
    set w | w in s.all && s.all[w].sup.Live?
  }

  /** Under every interleaving of start, stop, restart and shutdown with any
      cancellations: one live supervisor per camera at most, never more live
      supervisors than the capacity, and every live one is in the registry. */
  lemma OneSupervisorPerCamera(capacity: nat, steps: seq<Step>, v: WorkerId, w: WorkerId)
    requires Runnable(Initial(capacity), steps)
    ensures var s := Exec(Initial(capacity), steps);
      && (v in LiveWorkers(s) && w in LiveWorkers(s) && s.all[v].camera == s.all[w].camera ==> v == w)
      && (w in LiveWorkers(s) ==> s.all[w].camera in s.workers && s.workers[s.all[w].camera] == w)
  {
    InitialInv(capacity);
    RunKeepsInv(Initial(capacity), steps);
    var s := Exec(Initial(capacity), steps);
    hide Runnable, Exec;
    if v in LiveWorkers(s) { assert Owned(s, v); }
    if w in LiveWorkers(s) { assert Owned(s, w); }
  }

  lemma SupervisorsWithinCapacity(capacity: nat, steps: seq<Step>)
    requires Runnable(Initial(capacity), steps)
    ensures |LiveWorkers(Exec(Initial(capacity), steps))| <= capacity
  {
    InitialInv(capacity);
    RunKeepsInv(Initial(capacity), steps);
    var s := Exec(Initial(capacity), steps);
    CapacityFixed(Initial(capacity), steps);
    hide Runnable, Exec;
    forall w | w in LiveWorkers(s) ensures w in s.workers.Values { assert Owned(s, w); }
    SubsetSize(LiveWorkers(s), s.workers.Values);
    FewValues(s.workers);
  }

  lemma {:induction false} CapacityFixed(s: State, steps: seq<Step>)
    requires Runnable(s, steps)
    ensures Exec(s, steps).capacity == s.capacity
    decreases |steps|
  {
    if steps != [] { StepFrame(s, steps[0]); hide Next; CapacityFixed(Next(s, steps[0]), steps[1..]); }
  }

  lemma {:induction false} FewValues<A(!new), B(!new)>(m: map<A, B>)
    ensures |m.Values| <= |m|
    decreases |m|
  {
    if m.Keys == {} {
      assert m == map[] && m.Values == {};
    } else {
      var a :| a in m.Keys;
      var n := m - {a};
      SmallerMap(m, a);
      FewValues(n);
      assert m.Values <= n.Values + {m[a]} by {
        forall b | b in m.Values ensures b in n.Values + {m[a]} {
          var k :| k in m && m[k] == b;
          if k != a { assert k in n && n[k] == b; }
        }
      }
      SubsetSize(m.Values, n.Values + {m[a]});
    }
  }

  /** A worker leaves the registry only after its supervisor has ended. */
  lemma LeavesOnlyAfterEnd(capacity: nat, steps: seq<Step>, step: Step, c: Cam)
    requires Runnable(Initial(capacity), steps) && Enabled(Exec(Initial(capacity), steps), step)
    ensures var s := Exec(Initial(capacity), steps);
      c in s.workers && (c !in Next(s, step).workers || Next(s, step).workers[c] != s.workers[c]) ==>
        HasEnded(s, s.workers[c]) && c !in Next(s, step).workers
  {
    InitialInv(capacity);
    RunKeepsInv(Initial(capacity), steps);
    var s := Exec(Initial(capacity), steps);
    hide Runnable, Exec;
    StepFrame(s, step);
    if step.DoRemove? {
      assert TaskOk(s, step.t);
      RemoveMoves(s, step);
      hide Next;
    } else if step.DoAdmit? {
      assert TaskOk(s, step.t);
    } else {
      hide Next;
    }
  }

  /** Once the shared shutdown finished, only workers whose supervisor crashed
      can be left, in every continuation; if none ever crashed, the registry is
      empty and stays so. */
  lemma ShutdownEmptiesRegistry(capacity: nat, steps: seq<Step>, more: seq<Step>)
    requires Runnable(Initial(capacity), steps) && Exec(Initial(capacity), steps).shutdown.Done?
    requires Runnable(Exec(Initial(capacity), steps), more)
    ensures var s := Exec(Exec(Initial(capacity), steps), more);
      && (forall c :: c in s.workers ==> HasCrashed(s, s.workers[c]))
      && LiveWorkers(s) == {}
      && ((forall w :: w in s.all ==> !HasCrashed(s, w)) ==> s.workers == map[])
  {
    InitialInv(capacity);
    RunKeepsInv(Initial(capacity), steps);
    var mid := Exec(Initial(capacity), steps);
    DoneStays(mid, more);
    RunKeepsInv(mid, more);
    var s := Exec(mid, more);
    hide Runnable, Exec;
    forall c | c in s.workers ensures HasCrashed(s, s.workers[c]) { assert Cleared(s, c); }
    assert forall w :: w in LiveWorkers(s) ==> Owned(s, w);
  }

  lemma {:induction false} DoneStays(s: State, steps: seq<Step>)
    requires s.shutdown.Done? && Runnable(s, steps)
    ensures Exec(s, steps).shutdown.Done?
    decreases |steps|
  {
    if steps != [] { StepFrame(s, steps[0]); hide Next; DoneStays(Next(s, steps[0]), steps[1..]); }
  }

  predicate NoSupervisorCrashes(steps: seq<Step>) {
    forall i :: 0 <= i < |steps| && steps[i].SupervisorEnds? ==> !steps[i].crashed
  }

  ghost predicate NoneCrashed(s: State) { forall w :: w in s.all ==> s.all[w].sup != Ended(true) }

  lemma StepCrashesNone(s: State, step: Step)
    requires NoneCrashed(s) && Enabled(s, step) && (step.SupervisorEnds? ==> !step.crashed)
    ensures NoneCrashed(Next(s, step))
  {
    if step.DoAdmit? {
      AdmitCrashesNone(s, step.t, step.newWorker);
    } else if IsTaskStep(step) {
      TaskStepSameWorkers(s, step);
      hide Next;
    }
  }

  lemma AdmitCrashesNone(s: State, t: TaskId, w: WorkerId)
    requires NoneCrashed(s) && t in s.tasks && s.tasks[t].pc.Admit?
    ensures NoneCrashed(AdmitStep(s, t, w))
  {
  }

  lemma TaskStepSameWorkers(s: State, step: Step)
    requires Enabled(s, step) && IsTaskStep(step) && !step.DoAdmit?
    ensures Next(s, step).all == s.all
  {
    hide Finish, At;
    AllKept(s, step.t);
    if step.DoRemove? { AllKept(s.(workers := s.workers - {s.tasks[step.t].camera}), step.t); }
  }

  lemma AllKept(s: State, t: TaskId)
    requires t in s.tasks
    ensures forall pc :: At(s, t, pc).all == s.all
    ensures forall o :: Finish(s, t, o).all == s.all
  {
  }

  lemma {:induction false} RunCrashesNone(s: State, steps: seq<Step>)
    requires NoneCrashed(s) && NoSupervisorCrashes(steps) && Runnable(s, steps)
    ensures NoneCrashed(Exec(s, steps))
    decreases |steps|
  {
    if steps != [] {
      StepCrashesNone(s, steps[0]);
      assert forall i :: 0 <= i < |steps| - 1 ==> steps[1..][i] == steps[i + 1];
      hide Next, NoneCrashed;
      RunCrashesNone(Next(s, steps[0]), steps[1..]);
    }
  }

  /** When no supervisor task itself raises, the registry is empty once the shared
      shutdown has finished, with or without failures of the workers' own close,
      and stays empty in every continuation. */
  lemma RegistryStaysEmpty(capacity: nat, steps: seq<Step>, more: seq<Step>)
    requires Runnable(Initial(capacity), steps) && Exec(Initial(capacity), steps).shutdown.Done?
    requires Runnable(Exec(Initial(capacity), steps), more)
    requires NoSupervisorCrashes(steps) && NoSupervisorCrashes(more)
    ensures Exec(Exec(Initial(capacity), steps), more).workers == map[]
  {
    RunCrashesNone(Initial(capacity), steps);
    RunCrashesNone(Exec(Initial(capacity), steps), more);
    ShutdownEmptiesRegistry(capacity, steps, more);
    hide Runnable, Exec;
  }
}
