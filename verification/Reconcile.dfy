/**
 `reconcile` on top of the manager: one caller, its removals, then its starts
 and restarts, all of them interleaved freely with each other, with their
 cancellation and with supervisors that end on their own.
 */
module Reconcile {
  import opened Prelude
  import opened Manager
  import opened ManagerInvariant

  datatype Phase =
    | Begin
    | Stops(ts: map<Cam, TaskId>)                 // gathering the removals
    | Looking(plan: map<Cam, Option<Kind>>)       // deciding camera by camera
    | Applying(ts: map<Cam, TaskId>)              // gathering starts and restarts
    | Settled                                       // returned normally
    | Failed

  // cancelled: the caller of reconcile was cancelled, which ends its own steps but not at once those of its tasks.
  datatype Call = Call(m: State, desired: map<Cam, Def>, phase: Phase, cancelled: bool)

  // A later definition of a camera replaces an earlier one.
  function ById(catalog: seq<(Cam, Def)>): map<Cam, Def> {
    if catalog == [] then map[]
    else
      var last := catalog[|catalog| - 1];
      ById(catalog[..|catalog| - 1])[last.0 := last.1]
  }

  // The call; duplicate camera ids make it fail at once.
  function Called(m: State, catalog: seq<(Cam, Def)>): Call {
    Call(m, ById(catalog), if |ById(catalog)| != |catalog| then Failed else Begin, false)
  }

  datatype CallStep =
    | ReadRegistry(ts: map<Cam, TaskId>)
    | GatherRemovals(failed: bool)                      // failed: some removal reported a FAILED outcome
    | Decides(camera: Cam, running: bool)           // running: the state read is RUNNING or RECONNECTING
    | StartOperations(ts: map<Cam, TaskId>)
    | GatherOperations
    | CancelCaller
    | Inner(step: Step)

  predicate NewTasks(m: State, ts: map<Cam, TaskId>) {
    && (forall c :: c in ts ==> ts[c] !in m.tasks)
    && (forall c, d :: c in ts && d in ts && ts[c] == ts[d] ==> c == d)
  }

  predicate AllDone(m: State, ts: map<Cam, TaskId>) {
    forall c :: c in ts ==> ts[c] in m.tasks && m.tasks[ts[c]].pc.Finished?
  }

  predicate AllReturned(m: State, ts: map<Cam, TaskId>) {
    forall c :: c in ts ==> ts[c] in m.tasks && m.tasks[ts[c]].pc == Finished(Returned)
  }

  // Nobody else calls the manager while reconcile runs.
  predicate OwnStep(step: Step) { IsTaskStep(step) || step.SupervisorEnds? || step.Collect? }

  ghost predicate CallEnabled(r: Call, step: CallStep) {
    match step
    case ReadRegistry(ts) => !r.cancelled && r.phase.Begin?
      && ts.Keys == r.m.workers.Keys - r.desired.Keys && NewTasks(r.m, ts)
    case GatherRemovals(_) => !r.cancelled && r.phase.Stops? && AllDone(r.m, r.phase.ts)
    case Decides(c, running) => !r.cancelled && r.phase.Looking? && c in r.desired && c !in r.phase.plan
      && (running ==> c in r.m.workers)
    case StartOperations(ts) => !r.cancelled && r.phase.Looking?
      && r.phase.plan.Keys == r.desired.Keys && NewTasks(r.m, ts)
      && ts.Keys == (set c | c in r.phase.plan && r.phase.plan[c].Some?)
    case GatherOperations => !r.cancelled && r.phase.Applying? && AllDone(r.m, r.phase.ts)
    case CancelCaller => !r.phase.Settled? && !r.phase.Failed?
    case Inner(inner) => OwnStep(inner) && Enabled(r.m, inner)
  }

  ghost function Spawned(m: State, ts: map<Cam, TaskId>, job: map<Cam, Task>): State
    requires ts.Keys == job.Keys
  {
    m.(tasks := m.tasks + map t | t in ts.Values :: job[CameraFor(ts, t)])
  }

  ghost function StopJobs(ts: map<Cam, TaskId>): map<Cam, Task> {
    map c | c in ts :: Task(Stop, c, 0, GetLock)
  }

  ghost function Jobs(ts: map<Cam, TaskId>, plan: map<Cam, Option<Kind>>, desired: map<Cam, Def>): map<Cam, Task>
    requires ts.Keys <= plan.Keys <= desired.Keys && forall c :: c in ts ==> plan[c].Some?
  {
    map c | c in ts :: Task(plan[c].value, c, desired[c], GetLock)
  }

  ghost function Decide(r: Call, c: Cam, running: bool): Option<Kind>
    requires c in r.desired
  {
    if c !in r.m.workers then Some(Start)
    else if !Holds(r.m, c, r.desired[c]) || !running then Some(Restart)
    else None
  }

  ghost function CallNext(r: Call, step: CallStep): Call
    requires CallEnabled(r, step)
  {
    match step
    case ReadRegistry(ts) =>
      if r.m.closed then r.(phase := Failed) else r.(m := Spawned(r.m, ts, StopJobs(ts)), phase := Stops(ts))
    case GatherRemovals(failed) =>
      r.(phase := if failed || !AllReturned(r.m, r.phase.ts) then Failed else Looking(map[]))
    case Decides(c, running) => r.(phase := Looking(r.phase.plan[c := Decide(r, c, running)]))
    case StartOperations(ts) => r.(m := Spawned(r.m, ts, Jobs(ts, r.phase.plan, r.desired)), phase := Applying(ts))
    case GatherOperations => r.(phase := if AllReturned(r.m, r.phase.ts) then Settled else Failed)
    case CancelCaller => r.(cancelled := true)
    case Inner(inner) => r.(m := Next(r.m, inner))
  }

  // A camera is left alone exactly if its worker looked running with the definition asked for, and
  // started exactly if it has none; any other worker is restarted.
  lemma DecisionMeans(r: Call, c: Cam, running: bool)
    requires CallEnabled(r, Decides(c, running))
    ensures var choice := CallNext(r, Decides(c, running)).phase.plan[c];
      && (choice.None? <==> running && Holds(r.m, c, r.desired[c]))
      && (choice == Some(Start) <==> c !in r.m.workers)
      && (choice == Some(Restart) <==> c in r.m.workers && !(running && Holds(r.m, c, r.desired[c])))
  {
  }

  // The registry holds camera c with definition d.
  ghost predicate Holds(m: State, c: Cam, d: Def) {
    c in m.workers && m.workers[c] in m.all && m.all[m.workers[c]].definition == d
  }

  // ----------------------------------------------------------------------- invariant

  ghost predicate RemovalOk(m: State, c: Cam, t: TaskId) {
    t in m.tasks &&
    var task := m.tasks[t];
    && task.camera == c && task.kind == Stop
    && (|| task.pc.GetLock? || task.pc.Acquire? || task.pc.Lookup?
        || task.pc.Stopping? || task.pc.Removing? || task.pc.Finished?)
    && (task.pc.Stopping? || task.pc.Removing? ==> task.pc.next == ThenReturn)
    && (task.pc == Finished(Returned) ==> c !in m.workers)
    && task.pc != Finished(NoCapacity)
  }

  ghost predicate JobOk(m: State, c: Cam, d: Def, t: TaskId) {
    t in m.tasks &&
    var task := m.tasks[t];
    && task.camera == c && task.definition == d && (task.kind == Start || task.kind == Restart)
    && (task.kind == Start && (task.pc.GetLock? || task.pc.Acquire? || task.pc.Lookup?) ==> c !in m.workers)
    && (task.pc.Starting? || task.pc.Undoing? || task.pc.Waiting? || task.pc.Check? ==> Holds(m, c, d))
    && (task.pc.Stopping? || task.pc.Removing? ==> task.pc.next != ThenReturn)
    && (task.pc == Finished(Returned) ==> Holds(m, c, d))
    && task.pc != Finished(NoCapacity)
  }

  function Mine(r: Call): set<TaskId> {
    if r.phase.Stops? || r.phase.Applying? then r.phase.ts.Values else {}
  }

  ghost predicate PlanOk(m: State, c: Cam, choice: Option<Kind>, desired: map<Cam, Def>) {
    && c in desired
    && (choice == Some(Start) ==> c !in m.workers)
    && (choice.None? ==> Holds(m, c, desired[c]))
    && (choice.Some? ==> choice.value == Start || choice.value == Restart)
  }

  ghost predicate PhaseOk(r: Call) {
    match r.phase
    case Begin => true
    case Failed => true
    case Stops(ts) => StopsOk(r.m, ts, r.desired)
    case Looking(plan) => PlansOk(r.m, plan, r.desired)
    case Applying(ts) => JobsOk(r.m, ts, r.desired)
    case Settled => Exactly(r.m, r.desired)
  }

  ghost predicate StopsOk(m: State, ts: map<Cam, TaskId>, desired: map<Cam, Def>) {
    && m.workers.Keys <= desired.Keys + ts.Keys
    && forall c {:trigger RemovalOk(m, c, ts[c])} :: c in ts ==> RemovalOk(m, c, ts[c])
  }

  ghost predicate PlansOk(m: State, plan: map<Cam, Option<Kind>>, desired: map<Cam, Def>) {
    && m.workers.Keys <= desired.Keys
    && forall c {:trigger PlanOk(m, c, plan[c], desired)} :: c in plan ==> PlanOk(m, c, plan[c], desired)
  }

  ghost predicate JobsOk(m: State, ts: map<Cam, TaskId>, desired: map<Cam, Def>) {
    && m.workers.Keys <= desired.Keys && ts.Keys <= desired.Keys
    && (forall c {:trigger JobOk(m, c, desired[c], ts[c])} :: c in ts ==> JobOk(m, c, desired[c], ts[c]))
    && (forall c {:trigger Holds(m, c, desired[c])} :: c in desired && c !in ts ==> Holds(m, c, desired[c]))
  }

  // The registry holds exactly the desired ids with the desired definitions.
  ghost predicate Exactly(m: State, desired: map<Cam, Def>) {
    && m.workers.Keys == desired.Keys
    && (forall c {:trigger Holds(m, c, desired[c])} :: c in desired ==> Holds(m, c, desired[c]))
  }

  ghost predicate Quiet(m: State, mine: set<TaskId>) {
    forall t :: t in m.tasks && Unfinished(m.tasks[t]) ==> t in mine
  }

  ghost predicate CallInv(r: Call) {
    && Inv(r.m) && |r.desired| <= r.m.capacity
    && Quiet(r.m, Mine(r))
    && (!r.phase.Begin? && !r.phase.Failed? ==> !r.m.closed)
    && PhaseOk(r)
  }

  // ------------------------------------------------------------------- one task's step

  // Where a task is after its step.
  ghost function PcAfter(m: State, step: Step): Pc
    requires Enabled(m, step) && IsTaskStep(step)
  {
    var task := m.tasks[step.t];
    var pc := task.pc;
    match step
    case DoGetLock(_, l) => Acquire(if task.camera in m.locks then m.locks[task.camera] else l)
    case DoAcquire(_) => Lookup(pc.lock)
    case DoLookup(_, running) =>
      if task.camera !in m.workers then
        (if task.kind == Start || task.kind == Restart then Admit(pc.lock) else Finished(Returned))
      else if task.kind == Start && running then Finished(Returned)
      else Stopping(pc.lock, m.workers[task.camera],
                    if task.kind == Start || task.kind == Restart then ThenAdmit else ThenReturn)
    case DoStopped(_) => if HasCrashed(m, pc.w) then Finished(Raised) else Removing(pc.lock, pc.w, pc.next)
    case DoRemove(_, failures) =>
      if pc.next.ThenReturn? then Finished(Returned)
      else if pc.next.ThenRaise? || failures then Finished(Raised) else Admit(pc.lock)
    case DoAdmit(_, w) =>
      if m.closed then Finished(Raised)
      else if |m.workers| >= m.capacity then Finished(NoCapacity) else Starting(pc.lock, w)
    case DoStarted(_, ok) => if ok then Check(pc.lock, pc.w) else Waiting(pc.lock, pc.w)
    case DoUndone(_) => Waiting(pc.lock, pc.w)
    case DoWaited(_) => if HasCrashed(m, pc.w) then Finished(Raised) else Removing(pc.lock, pc.w, ThenRaise)
    case DoCheck(_) => if m.closed then Stopping(pc.lock, pc.w, ThenRaise) else Finished(Returned)
    case Cancel(_) =>
      if pc.Starting? then Undoing(pc.lock, pc.w) else if pc.Undoing? then Waiting(pc.lock, pc.w) else Finished(Raised)
  }

  lemma AtPc(m: State, t: TaskId, pc: Pc)
    requires t in m.tasks
    ensures At(m, t, pc).tasks[t] == m.tasks[t].(pc := pc)
    ensures Finish(m, t, Raised).tasks[t] == m.tasks[t].(pc := Finished(Raised))
    ensures Finish(m, t, Returned).tasks[t] == m.tasks[t].(pc := Finished(Returned))
    ensures Finish(m, t, NoCapacity).tasks[t] == m.tasks[t].(pc := Finished(NoCapacity))
  {
  }

  lemma AfterLookup(m: State, step: Step)
    requires Enabled(m, step) && IsTaskStep(step) && step.DoLookup?
    ensures step.t in Next(m, step).tasks && Next(m, step).tasks[step.t] == m.tasks[step.t].(pc := PcAfter(m, step))
  {
    AtPc(m, step.t, PcAfter(m, step));
    hide At, Finish;
  }

  lemma AfterAdmit(m: State, step: Step)
    requires Enabled(m, step) && IsTaskStep(step) && step.DoAdmit?
    ensures step.t in Next(m, step).tasks && Next(m, step).tasks[step.t] == m.tasks[step.t].(pc := PcAfter(m, step))
  {
    AtPc(m, step.t, PcAfter(m, step));
    hide At, Finish;
  }

  lemma AfterRemove(m: State, step: Step)
    requires Enabled(m, step) && IsTaskStep(step) && step.DoRemove?
    ensures step.t in Next(m, step).tasks && Next(m, step).tasks[step.t] == m.tasks[step.t].(pc := PcAfter(m, step))
  {
    AtPc(m.(workers := m.workers - {m.tasks[step.t].camera}), step.t, PcAfter(m, step));
    AtPc(m, step.t, PcAfter(m, step));
    hide At, Finish;
  }

  lemma AfterWait(m: State, step: Step)
    requires Enabled(m, step) && IsTaskStep(step)
    requires (step.DoStopped? || step.DoStarted? || step.DoUndone? || step.DoWaited?)
    ensures step.t in Next(m, step).tasks && Next(m, step).tasks[step.t] == m.tasks[step.t].(pc := PcAfter(m, step))
  {
    AtPc(m, step.t, PcAfter(m, step));
    hide At, Finish;
  }

  lemma AfterStep(m: State, step: Step)
    requires Enabled(m, step) && IsTaskStep(step)
    ensures step.t in Next(m, step).tasks && Next(m, step).tasks[step.t] == m.tasks[step.t].(pc := PcAfter(m, step))
  {
    if step.DoLookup? {
      AfterLookup(m, step);
      hide Next, PcAfter;
    } else if step.DoAdmit? {
      AfterAdmit(m, step);
      hide Next, PcAfter;
    } else if step.DoRemove? {
      AfterRemove(m, step);
      hide Next, PcAfter;
    } else if step.DoStopped? || step.DoStarted? || step.DoUndone? || step.DoWaited? {
      AfterWait(m, step);
      hide Next, PcAfter;
    } else {
      AtPc(m, step.t, PcAfter(m, step));
    }
  }

  // The task's own camera after the step: only a removal or an admission touches it.
  lemma OwnCamera(m: State, step: Step)
    requires Enabled(m, step) && IsTaskStep(step) && TaskOk(m, step.t)
    ensures var m' := Next(m, step); var c := m.tasks[step.t].camera;
      if step.DoRemove? then m'.workers == m.workers - {c} && m'.all == m.all
      else if step.DoAdmit? && PcAfter(m, step).Starting? then
        && m'.workers == m.workers[c := step.newWorker]
        && m'.all == m.all[step.newWorker := Worker(c, m.tasks[step.t].definition, Live)]
      else m'.workers == m.workers && m'.all == m.all
  {
    hide Next, PcAfter, Enabled;
    if step.DoRemove? { RemoveMoves(m, step); }
    else if step.DoAdmit? { OwnAdmit(m, step); }
    else { OwnElse(m, step); }
  }

  lemma OwnAdmit(m: State, step: Step)
    requires Enabled(m, step) && step.DoAdmit? && TaskOk(m, step.t)
    ensures var m' := Next(m, step); var c := m.tasks[step.t].camera;
      if PcAfter(m, step).Starting? then
        && m'.workers == m.workers[c := step.newWorker]
        && m'.all == m.all[step.newWorker := Worker(c, m.tasks[step.t].definition, Live)]
      else m'.workers == m.workers && m'.all == m.all
  {
  }

  lemma OwnElse(m: State, step: Step)
    requires Enabled(m, step) && IsTaskStep(step) && !step.DoRemove? && !step.DoAdmit?
    ensures Next(m, step).workers == m.workers && Next(m, step).all == m.all
  {
    TaskStepIsLocal(m, step);
    TaskStepSameWorkers(m, step);
    hide Next;
  }

  lemma RemovalStep(m: State, step: Step, c: Cam)
    requires Enabled(m, step) && IsTaskStep(step) && TaskOk(m, step.t) && RemovalOk(m, c, step.t)
    ensures RemovalOk(Next(m, step), c, step.t)
    ensures Next(m, step).workers.Keys <= m.workers.Keys
  {
    if step.DoRemove? { RemovalRemoves(m, step, c); } else { RemovalWaits(m, step, c); }
    hide Next;
  }

  lemma RemovalRemoves(m: State, step: Step, c: Cam)
    requires Enabled(m, step) && step.DoRemove? && TaskOk(m, step.t) && RemovalOk(m, c, step.t)
    ensures RemovalOk(Next(m, step), c, step.t) && Next(m, step).workers.Keys <= m.workers.Keys
  {
    AfterStep(m, step);
    RemoveMoves(m, step);
    hide Next, TaskOk;
  }

  lemma RemovalWaits(m: State, step: Step, c: Cam)
    requires Enabled(m, step) && IsTaskStep(step) && !step.DoRemove? && RemovalOk(m, c, step.t)
    ensures RemovalOk(Next(m, step), c, step.t) && Next(m, step).workers == m.workers
  {
    AfterStep(m, step);
    TaskStepIsLocal(m, step);
    hide Next, Local;
  }

  lemma JobStep(m: State, step: Step, c: Cam, d: Def, ids: set<Cam>)
    requires Enabled(m, step) && IsTaskStep(step) && TaskOk(m, step.t) && JobOk(m, c, d, step.t)
    requires !m.closed && m.workers.Keys <= ids && c in ids && |ids| <= m.capacity
    ensures JobOk(Next(m, step), c, d, step.t)
    ensures Next(m, step).workers.Keys <= ids
  {
    AfterStep(m, step);
    OwnCamera(m, step);
    hide Next;
    if step.DoAdmit? { JobAdmit(m, step, c, d, ids); }
  }

  lemma JobAdmit(m: State, step: Step, c: Cam, d: Def, ids: set<Cam>)
    requires Enabled(m, step) && step.DoAdmit? && TaskOk(m, step.t) && JobOk(m, c, d, step.t)
    requires !m.closed && m.workers.Keys <= ids && c in ids && |ids| <= m.capacity
    ensures JobOk(Next(m, step), c, d, step.t)
    ensures Next(m, step).workers.Keys <= ids
  {
    RoomLeft(m, c, ids);
    AfterStep(m, step);
    OwnCamera(m, step);
    hide Next, Enabled, TaskOk;
  }

  // A camera of the ids that is not registered leaves room for itself.
  lemma RoomLeft(m: State, c: Cam, ids: set<Cam>)
    requires m.workers.Keys <= ids && c in ids && c !in m.workers && |ids| <= m.capacity
    ensures |m.workers| < m.capacity
  {
    SubsetSize(m.workers.Keys, ids - {c});
  }

  // --------------------------------------------------------------------- inner steps

  lemma LocalKeepsStops(m: State, m': State, ts: map<Cam, TaskId>, desired: map<Cam, Def>, c: Cam)
    requires StopsOk(m, ts, desired) && c in ts && Local(m, m', ts[c])
    requires RemovalOk(m', c, ts[c]) && m'.workers.Keys <= m.workers.Keys
    ensures StopsOk(m', ts, desired)
  {
    assert RemovalOk(m, c, ts[c]);
    forall d | d in ts ensures RemovalOk(m', d, ts[d]) {
      if d != c { assert RemovalOk(m, d, ts[d]) && SameWorker(m, m', d); }
    }
  }

  lemma LocalKeepsJobs(m: State, m': State, ts: map<Cam, TaskId>, desired: map<Cam, Def>, c: Cam)
    requires JobsOk(m, ts, desired) && c in ts && Local(m, m', ts[c])
    requires JobOk(m', c, desired[c], ts[c]) && m'.workers.Keys <= desired.Keys
    ensures JobsOk(m', ts, desired)
  {
    assert JobOk(m, c, desired[c], ts[c]);
    forall d | d in ts ensures JobOk(m', d, desired[d], ts[d]) {
      if d != c { assert JobOk(m, d, desired[d], ts[d]) && SameWorker(m, m', d); }
    }
    forall d | d in desired && d !in ts ensures Holds(m', d, desired[d]) {
      assert SameWorker(m, m', d) && Holds(m, d, desired[d]);
    }
  }

  lemma TaskStepKeepsPhase(r: Call, step: Step)
    requires TasksOk(r.m) && |r.desired| <= r.m.capacity && !r.m.closed && PhaseOk(r)
    requires Enabled(r.m, step) && IsTaskStep(step) && step.t in Mine(r)
    ensures PhaseOk(r.(m := Next(r.m, step)))
  {
    var ts := r.phase.ts;
    var c :| c in ts && ts[c] == step.t;
    assert TaskOk(r.m, step.t) by { AfterStep(r.m, step); }
    TaskStepIsLocal(r.m, step);
    hide TasksOk, TaskOk, Next, Enabled, Local;
    if r.phase.Stops? {
      RemovalStep(r.m, step, c);
      LocalKeepsStops(r.m, Next(r.m, step), ts, r.desired, c);
    } else {
      assert JobOk(r.m, c, r.desired[c], ts[c]);
      JobStep(r.m, step, c, r.desired[c], r.desired.Keys);
      LocalKeepsJobs(r.m, Next(r.m, step), ts, r.desired, c);
    }
  }

  // Same tasks, same registry; supervisors may have ended and locks been collected.
  ghost predicate Background(m: State, m': State) {
    && m'.workers == m.workers && m'.tasks == m.tasks
    && forall w :: w in m.all ==> w in m'.all && m'.all[w].definition == m.all[w].definition
  }

  lemma BackgroundKeepsPhase(r: Call, m': State)
    requires PhaseOk(r) && Background(r.m, m')
    ensures PhaseOk(r.(m := m'))
  {
    var m := r.m;
    match r.phase {
      case Stops(ts) =>
        forall c | c in ts ensures RemovalOk(m', c, ts[c]) { assert RemovalOk(m, c, ts[c]); }
      case Looking(plan) =>
        forall c | c in plan ensures PlanOk(m', c, plan[c], r.desired) { assert PlanOk(m, c, plan[c], r.desired); }
      case Applying(ts) =>
        forall c | c in ts ensures JobOk(m', c, r.desired[c], ts[c]) { assert JobOk(m, c, r.desired[c], ts[c]); }
        forall c | c in r.desired && c !in ts ensures Holds(m', c, r.desired[c]) { assert Holds(m, c, r.desired[c]); }
      case Settled =>
        forall c | c in r.desired ensures Holds(m', c, r.desired[c]) { assert Holds(m, c, r.desired[c]); }
      case _ =>
    }
  }

  lemma QuietStep(m: State, step: Step, mine: set<TaskId>)
    requires Quiet(m, mine) && OwnStep(step) && Enabled(m, step)
    ensures Quiet(Next(m, step), mine)
    ensures Next(m, step).closed == m.closed
    ensures if IsTaskStep(step) then step.t in mine else Background(m, Next(m, step))
  {
    if IsTaskStep(step) {
      TaskStepIsLocal(m, step);
      hide Next;
    }
  }

  lemma InnerKeeps(r: Call, step: Step)
    requires CallInv(r) && CallEnabled(r, Inner(step))
    ensures CallInv(CallNext(r, Inner(step)))
  {
    assert Enabled(r.m, step) && OwnStep(step);
    hide Enabled, Next, Inv;
    StepKeepsInv(r.m, step);
    hide Quiet, PhaseOk;
    QuietStep(r.m, step, Mine(r));
    StepFrame(r.m, step);
    if IsTaskStep(step) {
      assert TasksOk(r.m) by { InvTasks(r.m); }
      TaskStepKeepsPhase(r, step);
    } else {
      BackgroundKeepsPhase(r, Next(r.m, step));
    }
  }

  lemma InvTasks(m: State)
    requires Inv(m)
    ensures TasksOk(m)
  {
  }

  // -------------------------------------------------------------------- caller's steps

  // New tasks, all about to ask for their lock, and nothing else.
  ghost predicate AddsTasks(m: State, m': State, ts: map<Cam, TaskId>, job: map<Cam, Task>) {
    && ts.Keys == job.Keys && m' == m.(tasks := m'.tasks)
    && (forall u :: u in m.tasks ==> u in m'.tasks && m'.tasks[u] == m.tasks[u])
    && (forall u :: u in m'.tasks && u !in m.tasks ==> u in ts.Values && m'.tasks[u].pc.GetLock?)
    && (forall c :: c in ts ==> ts[c] in m'.tasks && m'.tasks[ts[c]] == job[c])
  }

  lemma SpawnAdds(m: State, ts: map<Cam, TaskId>, job: map<Cam, Task>)
    requires ts.Keys == job.Keys && NewTasks(m, ts) && forall c :: c in job ==> job[c].pc.GetLock?
    ensures AddsTasks(m, Spawned(m, ts, job), ts, job)
  {
    forall c | c in ts ensures ts[c] in Spawned(m, ts, job).tasks && Spawned(m, ts, job).tasks[ts[c]] == job[c] {
      assert ts[c] in ts.Values;
    }
  }

  lemma AddingKeepsInv(m: State, m': State, ts: map<Cam, TaskId>, job: map<Cam, Task>)
    requires Inv(m) && AddsTasks(m, m', ts, job)
    ensures Inv(m')
  {
    hide LocksOk, RegistryOk, ShutdownOk;
    forall u | u in m'.tasks ensures TaskOk(m', u) {
      if u in m.tasks { assert TaskOk(m, u); TaskCarried(m, m', u); }
    }
    assert TasksOk(m');
    hide TasksOk, TaskOk;
    forall l | l in m'.holder && HolderOk(m, l) ensures HolderOk(m', l) { }
    LocksCarried(m, m');
    RegistryCarried(m, m');
    ShutdownCarried(m, m');
  }

  lemma AddingKeepsQuiet(m: State, m': State, ts: map<Cam, TaskId>, job: map<Cam, Task>)
    requires Quiet(m, {}) && AddsTasks(m, m', ts, job)
    ensures Quiet(m', ts.Values)
  {
  }

  lemma AddedStopsOk(m: State, m': State, ts: map<Cam, TaskId>, desired: map<Cam, Def>)
    requires AddsTasks(m, m', ts, StopJobs(ts)) && ts.Keys == m.workers.Keys - desired.Keys
    ensures StopsOk(m', ts, desired)
  {
    forall c | c in ts ensures RemovalOk(m', c, ts[c]) { }
  }

  lemma AddedJobsOk(m: State, m': State, ts: map<Cam, TaskId>, plan: map<Cam, Option<Kind>>, desired: map<Cam, Def>)
    requires PlansOk(m, plan, desired) && plan.Keys == desired.Keys && ts.Keys == (set c | c in plan && plan[c].Some?)
    requires AddsTasks(m, m', ts, Jobs(ts, plan, desired))
    ensures JobsOk(m', ts, desired)
  {
    forall c | c in ts ensures JobOk(m', c, desired[c], ts[c]) { assert PlanOk(m, c, plan[c], desired); }
    forall c | c in desired && c !in ts ensures Holds(m', c, desired[c]) { assert PlanOk(m, c, plan[c], desired); }
  }

  lemma BeginKeeps(r: Call, step: CallStep)
    requires CallInv(r) && CallEnabled(r, step) && step.ReadRegistry?
    ensures CallInv(CallNext(r, step))
  {
    hide Inv, Spawned, AddsTasks, Quiet, StopsOk, NewTasks;
    var job := StopJobs(step.ts);
    SpawnAdds(r.m, step.ts, job);
    if !r.m.closed {
      var m' := CallNext(r, step).m;
      AddingKeepsInv(r.m, m', step.ts, job);
      AddingKeepsQuiet(r.m, m', step.ts, job);
      AddedStopsOk(r.m, m', step.ts, r.desired);
    }
  }

  lemma ApplyKeeps(r: Call, step: CallStep)
    requires CallInv(r) && CallEnabled(r, step) && step.StartOperations?
    ensures CallInv(CallNext(r, step))
  {
    var m', job := CallNext(r, step).m, Jobs(step.ts, r.phase.plan, r.desired);
    SpawnAdds(r.m, step.ts, job);
    hide Inv, Spawned, AddsTasks, Quiet, PlansOk, JobsOk;
    AddingKeepsInv(r.m, m', step.ts, job);
    AddingKeepsQuiet(r.m, m', step.ts, job);
    AddedJobsOk(r.m, m', step.ts, r.phase.plan, r.desired);
  }

  lemma LookKeeps(r: Call, step: CallStep)
    requires CallInv(r) && CallEnabled(r, step) && step.Decides?
    ensures CallInv(CallNext(r, step))
  {
    hide Inv;
    var r' := CallNext(r, step);
    forall c | c in r'.phase.plan ensures PlanOk(r.m, c, r'.phase.plan[c], r.desired) {
      if c != step.camera { assert PlanOk(r.m, c, r.phase.plan[c], r.desired); }
    }
  }

  lemma RemovedKeeps(r: Call, step: CallStep)
    requires CallInv(r) && CallEnabled(r, step) && step.GatherRemovals?
    ensures CallInv(CallNext(r, step))
  {
    hide Inv;
    if AllReturned(r.m, r.phase.ts) {
      forall c | c in r.m.workers ensures c in r.desired {
        assert c in r.phase.ts ==> RemovalOk(r.m, c, r.phase.ts[c]);
      }
    }
    AllDoneIsQuiet(r.m, r.phase.ts);
    hide Quiet;
  }

  lemma DoneKeeps(r: Call, step: CallStep)
    requires CallInv(r) && CallEnabled(r, step) && step.GatherOperations?
    ensures CallInv(CallNext(r, step))
  {
    hide Inv;
    if AllReturned(r.m, r.phase.ts) {
      forall c | c in r.desired ensures c in r.m.workers && Holds(r.m, c, r.desired[c]) {
        if c in r.phase.ts {
          assert JobOk(r.m, c, r.desired[c], r.phase.ts[c]);
        } else {
          assert Holds(r.m, c, r.desired[c]);
        }
      }
    }
    AllDoneIsQuiet(r.m, r.phase.ts);
    hide Quiet;
  }

  lemma CancelKeeps(r: Call, step: CallStep)
    requires CallInv(r) && CallEnabled(r, step) && step.CancelCaller?
    ensures CallInv(CallNext(r, step))
  {
    hide Inv, Quiet, StopsOk, PlansOk, JobsOk, Exactly;
  }

  lemma {:induction false} ByIdIsSmaller(catalog: seq<(Cam, Def)>)
    ensures |ById(catalog)| <= |catalog|
  {
    if catalog != [] {
      var rest, last := ById(catalog[..|catalog| - 1]), catalog[|catalog| - 1];
      ByIdIsSmaller(catalog[..|catalog| - 1]);
      assert ById(catalog).Keys == rest.Keys + {last.0};
    }
  }

  lemma AllDoneIsQuiet(m: State, ts: map<Cam, TaskId>)
    requires Quiet(m, ts.Values) && AllDone(m, ts)
    ensures Quiet(m, {})
  {
  }

  // ----------------------------------------------------------------------- whole runs

  ghost predicate CallRunnable(r: Call, steps: seq<CallStep>)
    decreases |steps|
  {
    steps == [] || (CallEnabled(r, steps[0]) && CallRunnable(CallNext(r, steps[0]), steps[1..]))
  }

  ghost function CallExec(r: Call, steps: seq<CallStep>): Call
    requires CallRunnable(r, steps)
    decreases |steps|
  {
    if steps == [] then r else CallExec(CallNext(r, steps[0]), steps[1..])
  }

  lemma {:induction false} RunKeepsCallInv(r: Call, steps: seq<CallStep>)
    requires CallInv(r) && CallRunnable(r, steps)
    ensures CallInv(CallExec(r, steps)) && CallExec(r, steps).desired == r.desired
    decreases |steps|
  {
    if steps != [] {
      var step := steps[0];
      if step.ReadRegistry? { BeginKeeps(r, step); }
      else if step.StartOperations? { ApplyKeeps(r, step); }
      else if step.Inner? { InnerKeeps(r, step.step); }
      else if step.Decides? { LookKeeps(r, step); }
      else if step.GatherRemovals? { RemovedKeeps(r, step); }
      else if step.CancelCaller? { CancelKeeps(r, step); }
      else { DoneKeeps(r, step); }
      hide CallInv;
      RunKeepsCallInv(CallNext(r, step), steps[1..]);
    }
  }

  // No removal, start or restart of the call has failed for capacity.
  ghost predicate NoneOverCapacity(r: Call) {
    forall t :: t in Mine(r) ==> t in r.m.tasks && r.m.tasks[t].pc != Finished(NoCapacity)
  }

  lemma InvWithinCapacity(r: Call)
    requires CallInv(r)
    ensures NoneOverCapacity(r) && |r.m.workers| <= r.m.capacity
  {
    if r.phase.Stops? {
      forall t | t in Mine(r) ensures t in r.m.tasks && r.m.tasks[t].pc != Finished(NoCapacity) {
        var c :| c in r.phase.ts && r.phase.ts[c] == t;
        assert RemovalOk(r.m, c, t);
      }
    } else if r.phase.Applying? {
      forall t | t in Mine(r) ensures t in r.m.tasks && r.m.tasks[t].pc != Finished(NoCapacity) {
        var c :| c in r.phase.ts && r.phase.ts[c] == t;
        assert JobOk(r.m, c, r.desired[c], r.phase.ts[c]);
      }
    }
  }

  /** From any reachable manager with no call in progress and a catalog of at most `capacity`
      cameras: no removal, start or restart of the reconcile ever fails for capacity, and a
      normal return leaves exactly the catalog's cameras with its definitions, whatever the
      interleaving and whoever is cancelled, the caller of reconcile included. */
  lemma ReconcileSettles(m: State, catalog: seq<(Cam, Def)>, steps: seq<CallStep>)
    requires Inv(m) && Quiet(m, {}) && |catalog| <= m.capacity
    requires CallRunnable(Called(m, catalog), steps)
    ensures var r := CallExec(Called(m, catalog), steps);
      && NoneOverCapacity(r)
      && (r.phase.Settled? ==> Exactly(r.m, ById(catalog)))
      && |r.m.workers| <= r.m.capacity
  {
    ByIdIsSmaller(catalog);
    RunKeepsCallInv(Called(m, catalog), steps);
    var r := CallExec(Called(m, catalog), steps);
    hide CallRunnable, CallExec;
    InvWithinCapacity(r);
  }
}
