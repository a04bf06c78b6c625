/** What it tells the caller that a start, restart or stop of a camera returns or fails. */
module ManagerOutcomes {
  import opened Manager
  import opened ManagerInvariant

  predicate Starts(kind: Kind) { kind == Start || kind == Restart }

  // A worker is being brought up, or its start is being undone.
  predicate Raising(pc: Pc) { pc.Starting? || pc.Undoing? || pc.Waiting? || pc.Check? }

  // Only starts and restarts bring workers up, always with their own definition; only stops stop to return.
  predicate PurposeOk(s: State, t: TaskId) { t in s.tasks ==> HasPurpose(s.all, s.tasks[t], s.tasks[t].pc) }

  predicate HasPurpose(all: map<WorkerId, Worker>, task: Task, pc: Pc) {
    && (pc.Admit? || Raising(pc) ==> Starts(task.kind))
    && (Raising(pc) ==> pc.w in all && all[pc.w].definition == task.definition)
    && (pc.Stopping? || pc.Removing? ==> (pc.next == ThenReturn <==> !Starts(task.kind)))
  }

  // Only task t moves, to this place.
  predicate MovesTo(s: State, s': State, t: TaskId, pc: Pc) {
    t in s.tasks && t in s'.tasks && s'.tasks[t] == s.tasks[t].(pc := pc)
  }

  lemma AtMoves(s: State, t: TaskId, pc: Pc)
    requires t in s.tasks
    ensures MovesTo(s, At(s, t, pc), t, pc) && At(s, t, pc).all == s.all
  {
  }

  lemma FinishMoves(s: State, t: TaskId, outcome: Outcome)
    requires t in s.tasks
    ensures MovesTo(s, Finish(s, t, outcome), t, Finished(outcome)) && Finish(s, t, outcome).all == s.all
  {
  }

  // Workers are never redefined.
  predicate DefinitionsKept(s: State, s': State) {
    forall w :: w in s.all ==> w in s'.all && s'.all[w].definition == s.all[w].definition
  }

  lemma DefinitionsStay(s: State, step: Step)
    requires Enabled(s, step)
    ensures DefinitionsKept(s, Next(s, step))
  {
    if IsTaskStep(step) { TaskStepIsLocal(s, step); } else { RestKeepsDefinitions(s, step); }
    hide Next, Enabled;
  }

  lemma RestKeepsDefinitions(s: State, step: Step)
    requires Enabled(s, step) && !IsTaskStep(step)
    ensures DefinitionsKept(s, Next(s, step))
  {
    hide CameraFor;
  }

  lemma LookupPurpose(s: State, t: TaskId, running: bool)
    requires t in s.tasks && s.tasks[t].pc.Lookup?
    ensures PurposeOk(LookupStep(s, t, running), t)
  {
    var task := s.tasks[t];
    FinishMoves(s, t, Returned);
    AtMoves(s, t, Admit(task.pc.lock));
    if task.camera in s.workers {
      AtMoves(s, t, Stopping(task.pc.lock, s.workers[task.camera], ThenAdmit));
      AtMoves(s, t, Stopping(task.pc.lock, s.workers[task.camera], ThenReturn));
    }
    hide At, Finish;
  }

  lemma RemovePurpose(s: State, t: TaskId, failures: bool)
    requires t in s.tasks && s.tasks[t].pc.Removing? && PurposeOk(s, t)
    ensures PurposeOk(RemoveStep(s, t, failures), t)
  {
    var task := s.tasks[t];
    var s' := if task.camera in s.workers && s.workers[task.camera] == task.pc.w
              then s.(workers := s.workers - {task.camera}) else s;
    AtMoves(s', t, Admit(task.pc.lock));
    FinishMoves(s', t, Returned);
    FinishMoves(s', t, Raised);
    hide At, Finish;
  }

  lemma AdmitPurpose(s: State, t: TaskId, w: WorkerId)
    requires t in s.tasks && s.tasks[t].pc.Admit? && PurposeOk(s, t)
    ensures PurposeOk(AdmitStep(s, t, w), t)
  {
    FinishMoves(s, t, Raised);
    FinishMoves(s, t, NoCapacity);
    AtMoves(s, t, Starting(s.tasks[t].pc.lock, w));
    hide At, Finish;
  }

  lemma CancelPurpose(s: State, t: TaskId)
    requires t in s.tasks && PurposeOk(s, t)
    ensures PurposeOk(CancelStep(s, t), t)
  {
    var pc := s.tasks[t].pc;
    FinishMoves(s, t, Raised);
    if pc.Starting? { AtMoves(s, t, Undoing(pc.lock, pc.w)); }
    if pc.Undoing? { AtMoves(s, t, Waiting(pc.lock, pc.w)); }
    hide At, Finish;
  }

  lemma OwnPurpose(s: State, step: Step, t: TaskId)
    requires Enabled(s, step) && IsTaskStep(step) && step.t == t && PurposeOk(s, t)
    ensures PurposeOk(Next(s, step), t)
  {
    hide LookupStep, RemoveStep, AdmitStep, CancelStep;
    match step {
      case DoLookup(_, running) => LookupPurpose(s, t, running);
      case DoRemove(_, failures) => RemovePurpose(s, t, failures);
      case DoAdmit(_, w) => AdmitPurpose(s, t, w);
      case Cancel(_) => CancelPurpose(s, t);
      case _ => PlainPurpose(s, step, t);
    }
    hide PurposeOk;
  }

  lemma PlainPurpose(s: State, step: Step, t: TaskId)
    requires Enabled(s, step) && IsTaskStep(step) && step.t == t && PurposeOk(s, t)
    requires !step.DoLookup? && !step.DoRemove? && !step.Cancel? && !step.DoAdmit?
    ensures PurposeOk(Next(s, step), t)
  {
    TaskStepIsLocal(s, step);
    PlainMoves(s, step, t);
    hide Next, Enabled;
  }

  // Where a step leads that looks nothing up, removes, admits and cancels nothing.
  ghost predicate PlainlyMoved(s: State, s': State, pc: Pc, pc': Pc) {
    && (Raising(pc') ==> Raising(pc) && pc'.w == pc.w)
    && !pc'.Admit?
    && (pc'.Removing? && pc.Stopping? ==> pc'.next == pc.next)
    && (pc'.Removing? && !pc.Stopping? ==> Raising(pc) && pc'.next == ThenRaise)
    && (pc'.Stopping? ==> Raising(pc) && pc'.next == ThenRaise)
    && (pc'.Finished? ==> s'.workers == s.workers && s'.all == s.all)
    && (pc' == Finished(Returned) ==> pc.Check?)
    && (pc'.Finished? && pc' != Finished(Returned) ==>
          pc' == Finished(Raised) && (pc.Stopping? || pc.Waiting?) && HasCrashed(s, pc.w))
  }

  lemma PlainMoves(s: State, step: Step, t: TaskId)
    requires Enabled(s, step) && IsTaskStep(step) && step.t == t
    requires !step.DoLookup? && !step.DoRemove? && !step.Cancel? && !step.DoAdmit?
    ensures t in Next(s, step).tasks && PlainlyMoved(s, Next(s, step), s.tasks[t].pc, Next(s, step).tasks[t].pc)
  {
    hide Next, PlainlyMoved;
    if step.DoUndone? || step.DoWaited? || step.DoCheck? { StartedMoves(s, step, t); } else { EarlyMoves(s, step, t); }
  }

  lemma EarlyMoves(s: State, step: Step, t: TaskId)
    requires Enabled(s, step) && (step.DoGetLock? || step.DoAcquire? || step.DoStopped? || step.DoStarted?)
    requires step.t == t
    ensures t in Next(s, step).tasks && PlainlyMoved(s, Next(s, step), s.tasks[t].pc, Next(s, step).tasks[t].pc)
  {
    hide At, Finish, GetLockStep;
    var pc := s.tasks[t].pc;
    FinishMoves(s, t, Raised);
    FinishKeeps(s, t, Raised);
    match step {
      case DoGetLock(_, l) => GetLockMoves(s, t, l);
      case DoAcquire(_) => AtMoves(s, t, Lookup(pc.lock));
      case DoStopped(_) => AtMoves(s, t, Removing(pc.lock, pc.w, pc.next));
      case DoStarted(_, ok) => AtMoves(s, t, if ok then Check(pc.lock, pc.w) else Waiting(pc.lock, pc.w));
    }
  }

  lemma StartedMoves(s: State, step: Step, t: TaskId)
    requires Enabled(s, step) && (step.DoUndone? || step.DoWaited? || step.DoCheck?) && step.t == t
    ensures t in Next(s, step).tasks && PlainlyMoved(s, Next(s, step), s.tasks[t].pc, Next(s, step).tasks[t].pc)
  {
    hide At, Finish;
    var pc := s.tasks[t].pc;
    FinishMoves(s, t, Raised);
    FinishKeeps(s, t, Raised);
    FinishMoves(s, t, Returned);
    FinishKeeps(s, t, Returned);
    match step {
      case DoUndone(_) => AtMoves(s, t, Waiting(pc.lock, pc.w));
      case DoWaited(_) => AtMoves(s, t, Removing(pc.lock, pc.w, ThenRaise));
      case DoCheck(_) => AtMoves(s, t, Stopping(pc.lock, pc.w, ThenRaise));
    }
  }

  lemma GetLockMoves(s: State, t: TaskId, l: LockId)
    requires t in s.tasks
    ensures t in GetLockStep(s, t, l).tasks && GetLockStep(s, t, l).tasks[t].pc.Acquire?
  {
  }

  lemma OtherPurpose(s: State, step: Step, t: TaskId)
    requires Enabled(s, step) && PurposeOk(s, t) && DefinitionsKept(s, Next(s, step))
    requires t in s.tasks && t in Next(s, step).tasks && Next(s, step).tasks[t] == s.tasks[t]
    ensures PurposeOk(Next(s, step), t)
  {
    hide Next;
  }

  // ------------------------------------------------------------------------ every run

  ghost predicate Purposes(s: State) { forall t {:trigger PurposeOk(s, t)} :: PurposeOk(s, t) }

  lemma StepKeepsPurpose(s: State, step: Step, t: TaskId)
    requires Enabled(s, step) && PurposeOk(s, t)
    ensures PurposeOk(Next(s, step), t)
  {
    DefinitionsStay(s, step);
    if IsTaskStep(step) {
      TaskStepIsLocal(s, step);
      if t == step.t { OwnPurpose(s, step, t); } else if t in s.tasks { OtherPurpose(s, step, t); }
    } else {
      NewTasksStart(s, step, t);
      if t in s.tasks { OtherPurpose(s, step, t); }
    }
    hide Next, Enabled;
  }

  // No other step moves a task, and a new one has not begun.
  lemma NewTasksStart(s: State, step: Step, t: TaskId)
    requires Enabled(s, step) && !IsTaskStep(step)
    ensures t in s.tasks ==> t in Next(s, step).tasks && Next(s, step).tasks[t] == s.tasks[t]
    ensures t !in s.tasks && t in Next(s, step).tasks ==> Next(s, step).tasks[t].pc.GetLock?
  {
    hide CameraFor;
  }

  lemma {:induction false} RunKeepsPurposes(s: State, steps: seq<Step>)
    requires Runnable(s, steps) && Purposes(s)
    ensures Purposes(Exec(s, steps))
    decreases |steps|
  {
    if steps != [] {
      hide PurposeOk, Next, Enabled;
      forall t ensures PurposeOk(Next(s, steps[0]), t) {
        assert PurposeOk(s, t);
        StepKeepsPurpose(s, steps[0], t);
      }
      RunKeepsPurposes(Next(s, steps[0]), steps[1..]);
    }
  }

  // The camera's registered worker has this definition.
  ghost predicate RegisteredAs(s: State, c: Cam, d: Def) {
    c in s.workers && s.workers[c] in s.all && s.all[s.workers[c]].definition == d
  }

  // What the task's return tells its caller about the camera, at that moment.
  ghost predicate ReturnMeans(s: State, task: Task, foundRunning: bool) {
    match task.kind
    case Start => RegisteredAs(s, task.camera, task.definition) || (foundRunning && task.camera in s.workers)
    case Restart => RegisteredAs(s, task.camera, task.definition)
    case _ => task.camera !in s.workers
  }

  lemma LookupReturns(s: State, t: TaskId, running: bool)
    requires t in s.tasks && s.tasks[t].pc.Lookup? && (running ==> s.tasks[t].camera in s.workers)
    ensures var s' := LookupStep(s, t, running);
      t in s'.tasks && (s'.tasks[t].pc == Finished(Returned) ==> ReturnMeans(s', s.tasks[t], running))
  {
    var task := s.tasks[t];
    FinishMoves(s, t, Returned);
    FinishKeeps(s, t, Returned);
    AtMoves(s, t, Admit(task.pc.lock));
    if task.camera in s.workers {
      AtMoves(s, t, Stopping(task.pc.lock, s.workers[task.camera], ThenAdmit));
      AtMoves(s, t, Stopping(task.pc.lock, s.workers[task.camera], ThenReturn));
    }
    hide At, Finish;
  }

  lemma FinishKeeps(s: State, t: TaskId, outcome: Outcome)
    requires t in s.tasks
    ensures Finish(s, t, outcome).workers == s.workers
  {
  }

  lemma RemoveReturns(s: State, t: TaskId, failures: bool)
    requires t in s.tasks && s.tasks[t].pc.Removing? && PurposeOk(s, t)
    requires s.tasks[t].camera in s.workers ==> s.workers[s.tasks[t].camera] == s.tasks[t].pc.w
    ensures var s' := RemoveStep(s, t, failures);
      t in s'.tasks && (s'.tasks[t].pc == Finished(Returned) ==> ReturnMeans(s', s.tasks[t], false))
  {
    var task := s.tasks[t];
    var s' := if task.camera in s.workers && s.workers[task.camera] == task.pc.w
              then s.(workers := s.workers - {task.camera}) else s;
    AtMoves(s', t, Admit(task.pc.lock));
    FinishMoves(s', t, Returned);
    FinishKeeps(s', t, Returned);
    FinishMoves(s', t, Raised);
    hide At, Finish;
  }

  lemma AdmitNeverReturns(s: State, t: TaskId, w: WorkerId)
    requires t in s.tasks && s.tasks[t].pc.Admit?
    ensures t in AdmitStep(s, t, w).tasks && AdmitStep(s, t, w).tasks[t].pc != Finished(Returned)
  {
    FinishMoves(s, t, Raised);
    FinishMoves(s, t, NoCapacity);
    AtMoves(s, t, Starting(s.tasks[t].pc.lock, w));
    hide At, Finish;
  }

  lemma CancelNeverReturns(s: State, t: TaskId)
    requires t in s.tasks && !s.tasks[t].pc.Finished?
    ensures t in CancelStep(s, t).tasks && CancelStep(s, t).tasks[t].pc != Finished(Returned)
  {
    var pc := s.tasks[t].pc;
    FinishMoves(s, t, Raised);
    if pc.Starting? { AtMoves(s, t, Undoing(pc.lock, pc.w)); }
    if pc.Undoing? { AtMoves(s, t, Waiting(pc.lock, pc.w)); }
    hide At, Finish;
  }

  lemma ReturningOwnStep(s: State, step: Step, t: TaskId)
    requires TaskOk(s, t) && PurposeOk(s, t) && Enabled(s, step) && IsTaskStep(step) && step.t == t
    requires t in Next(s, step).tasks && Next(s, step).tasks[t].pc == Finished(Returned)
    ensures ReturnMeans(Next(s, step), s.tasks[t], step == DoLookup(t, true))
  {
    hide LookupStep, RemoveStep, AdmitStep, CancelStep, GetLockStep, At, Finish;
    match step {
      case DoLookup(_, running) => LookupReturns(s, t, running);
      case DoRemove(_, failures) => RemoveReturns(s, t, failures);
      case DoAdmit(_, w) => AdmitNeverReturns(s, t, w);
      case Cancel(_) => CancelNeverReturns(s, t);
      case _ => PlainReturns(s, step, t);
    }
    hide ReturnMeans;
  }

  lemma PlainReturns(s: State, step: Step, t: TaskId)
    requires TaskOk(s, t) && PurposeOk(s, t) && Enabled(s, step) && IsTaskStep(step) && step.t == t
    requires !step.DoLookup? && !step.DoRemove? && !step.Cancel? && !step.DoAdmit?
    requires t in Next(s, step).tasks && Next(s, step).tasks[t].pc == Finished(Returned)
    ensures ReturnMeans(Next(s, step), s.tasks[t], false)
  {
    TaskStepIsLocal(s, step);
    PlainMoves(s, step, t);
    hide Next, Enabled;
  }

  lemma ReturningStep(s: State, step: Step, t: TaskId)
    requires Inv(s) && PurposeOk(s, t) && Enabled(s, step) && t in s.tasks && !s.tasks[t].pc.Finished?
    requires t in Next(s, step).tasks && Next(s, step).tasks[t].pc == Finished(Returned)
    ensures ReturnMeans(Next(s, step), s.tasks[t], step == DoLookup(t, true))
  {
    assert TaskOk(s, t);
    if IsTaskStep(step) && step.t == t {
      ReturningOwnStep(s, step, t);
    } else if IsTaskStep(step) {
      TaskStepIsLocal(s, step);
      assert false;
    } else {
      NewTasksStart(s, step, t);
      assert false;
    }
  }

  /** Whatever else is running or cancelled: at the moment a stop returns its camera is out of the
      registry, and at the moment a start or restart returns its camera is registered with the
      definition asked for; a start also returns when it finds a worker running and leaves that one. */
  lemma ReturnsMeanDone(capacity: nat, steps: seq<Step>, step: Step, t: TaskId)
    requires Runnable(Initial(capacity), steps) && Enabled(Exec(Initial(capacity), steps), step)
    requires var s := Exec(Initial(capacity), steps);
      && t in s.tasks && !s.tasks[t].pc.Finished?
      && t in Next(s, step).tasks && Next(s, step).tasks[t].pc == Finished(Returned)
    ensures var s := Exec(Initial(capacity), steps);
      ReturnMeans(Next(s, step), s.tasks[t], step == DoLookup(t, true))
  {
    InitialInv(capacity);
    RunKeepsInv(Initial(capacity), steps);
    assert Purposes(Initial(capacity));
    RunKeepsPurposes(Initial(capacity), steps);
    var s := Exec(Initial(capacity), steps);
    hide Runnable, Exec, Inv, Next, Enabled, ReturnMeans;
    assert PurposeOk(s, t);
    ReturningStep(s, step, t);
  }

  // ------------------------------------------------------------------- a start that fails

  // The worker the task brought up is being taken down again.
  predicate TakingDown(pc: Pc) { Raising(pc) || ((pc.Stopping? || pc.Removing?) && pc.next == ThenRaise) }

  // Why a start or restart may fail, and what it leaves of the worker it brought up.
  ghost predicate FailureMeans(s: State, s': State, step: Step, t: TaskId) {
    t in s.tasks && t in s'.tasks && s'.tasks[t].pc.Finished? &&
    var task := s.tasks[t];
    && (s'.tasks[t].pc == Finished(NoCapacity) ==>
          step.DoAdmit? && |s.workers| >= s.capacity && task.camera !in s.workers && s'.workers == s.workers)
    && (step == Cancel(t) ==> !task.pc.Starting? && !task.pc.Undoing?)
    && (step != Cancel(t) && TakingDown(task.pc) ==>
          task.camera !in s'.workers || HasCrashed(s', s'.workers[task.camera]))
  }

  lemma CancelledFails(s: State, t: TaskId)
    requires t in s.tasks
    ensures var s' := CancelStep(s, t);
      t in s'.tasks && (s'.tasks[t].pc.Finished? ==>
        s'.tasks[t].pc == Finished(Raised) && !s.tasks[t].pc.Starting? && !s.tasks[t].pc.Undoing?)
  {
    var pc := s.tasks[t].pc;
    FinishMoves(s, t, Raised);
    if pc.Starting? { AtMoves(s, t, Undoing(pc.lock, pc.w)); }
    if pc.Undoing? { AtMoves(s, t, Waiting(pc.lock, pc.w)); }
    hide At, Finish;
  }

  lemma RemoveFails(s: State, t: TaskId, failures: bool)
    requires t in s.tasks && s.tasks[t].pc.Removing?
    requires s.tasks[t].camera in s.workers ==> s.workers[s.tasks[t].camera] == s.tasks[t].pc.w
    ensures var s' := RemoveStep(s, t, failures);
      t in s'.tasks && s'.tasks[t].pc != Finished(NoCapacity)
      && (s'.tasks[t].pc.Finished? ==> s.tasks[t].camera !in s'.workers)
  {
    var task := s.tasks[t];
    var s' := if task.camera in s.workers && s.workers[task.camera] == task.pc.w
              then s.(workers := s.workers - {task.camera}) else s;
    AtMoves(s', t, Admit(task.pc.lock));
    FinishMoves(s', t, Returned);
    FinishKeeps(s', t, Returned);
    FinishMoves(s', t, Raised);
    FinishKeeps(s', t, Raised);
    hide At, Finish;
  }

  lemma AdmitFails(s: State, t: TaskId, w: WorkerId)
    requires t in s.tasks && s.tasks[t].pc.Admit?
    ensures var s' := AdmitStep(s, t, w);
      t in s'.tasks && (s'.tasks[t].pc == Finished(NoCapacity) ==>
        |s.workers| >= s.capacity && s'.workers == s.workers)
  {
    FinishMoves(s, t, Raised);
    FinishMoves(s, t, NoCapacity);
    FinishKeeps(s, t, NoCapacity);
    AtMoves(s, t, Starting(s.tasks[t].pc.lock, w));
    hide At, Finish;
  }

  lemma LookupFails(s: State, t: TaskId, running: bool)
    requires t in s.tasks && s.tasks[t].pc.Lookup?
    ensures var s' := LookupStep(s, t, running); t in s'.tasks && s'.tasks[t].pc != Finished(NoCapacity)
  {
    var task := s.tasks[t];
    FinishMoves(s, t, Returned);
    AtMoves(s, t, Admit(task.pc.lock));
    if task.camera in s.workers {
      AtMoves(s, t, Stopping(task.pc.lock, s.workers[task.camera], ThenAdmit));
      AtMoves(s, t, Stopping(task.pc.lock, s.workers[task.camera], ThenReturn));
    }
    hide At, Finish;
  }

  lemma FinishingStep(s: State, step: Step, t: TaskId)
    requires TaskOk(s, t) && Enabled(s, step) && IsTaskStep(step) && step.t == t && !s.tasks[t].pc.Finished?
    requires t in Next(s, step).tasks && Next(s, step).tasks[t].pc.Finished?
    requires Next(s, step).tasks[t].pc != Finished(Returned)
    ensures FailureMeans(s, Next(s, step), step, t)
  {
    hide LookupStep, RemoveStep, AdmitStep, CancelStep, GetLockStep, At, Finish;
    match step {
      case DoLookup(_, running) => LookupFails(s, t, running);
      case DoRemove(_, failures) => RemoveFails(s, t, failures);
      case DoAdmit(_, w) => AdmitFails(s, t, w);
      case Cancel(_) => CancelledFails(s, t);
      case _ => PlainFails(s, step, t);
    }
    hide HasCrashed;
  }

  lemma PlainFails(s: State, step: Step, t: TaskId)
    requires TaskOk(s, t) && Enabled(s, step) && IsTaskStep(step) && step.t == t
    requires !step.DoLookup? && !step.DoRemove? && !step.Cancel? && !step.DoAdmit?
    requires t in Next(s, step).tasks && Next(s, step).tasks[t].pc.Finished?
    requires Next(s, step).tasks[t].pc != Finished(Returned)
    ensures FailureMeans(s, Next(s, step), step, t)
  {
    TaskStepIsLocal(s, step);
    PlainMoves(s, step, t);
    hide Next, Enabled;
  }

  /** Whatever else is running: a call that fails for capacity found the registry full; one cancelled
      while its worker starts, or while that is undone, does not end yet; and one that ends with an
      error after bringing a worker up leaves none of it registered, except one whose supervisor
      raised, unless it was cancelled again while it waited. */
  lemma FailuresLeaveNothing(capacity: nat, steps: seq<Step>, step: Step, t: TaskId)
    requires Runnable(Initial(capacity), steps) && Enabled(Exec(Initial(capacity), steps), step)
    requires var s := Exec(Initial(capacity), steps);
      && t in s.tasks && !s.tasks[t].pc.Finished? && t in Next(s, step).tasks
      && Next(s, step).tasks[t].pc.Finished? && Next(s, step).tasks[t].pc != Finished(Returned)
    ensures var s := Exec(Initial(capacity), steps); FailureMeans(s, Next(s, step), step, t)
  {
    InitialInv(capacity);
    RunKeepsInv(Initial(capacity), steps);
    var s := Exec(Initial(capacity), steps);
    assert TaskOk(s, t);
    hide Runnable, Exec, Inv, Next, Enabled, FailureMeans, TaskOk;
    if IsTaskStep(step) && step.t == t {
      FinishingStep(s, step, t);
    } else if IsTaskStep(step) {
      TaskStepIsLocal(s, step);
      assert false;
    } else {
      NewTasksStart(s, step, t);
      assert false;
    }
  }
}
