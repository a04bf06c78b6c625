/**
 Callback draining of the frame pipeline.  Processing threads, callback tasks on
 the event loop and the asynchronous close interleave freely; one step is one
 section under a lock or one stretch of a task.
 */
module PipelineDrain {
  import opened Prelude

  type ProcId = nat
  type TaskId = nat

  // Where a thread inside `process` is; a thread that left is forgotten.
  datatype Pc =
    | Entered                 // counted, waiting for the process lock
    | Locked                  // inside _process_locked, between two emits
    | Admitted                // the submission is counted, event_callback is not called yet
    | Submitting              // event_callback was called
    | Reserved                // a reservation is held, a callback task is being created
    | Created(task: TaskId)   // it exists, the reservation is still held
    | Unlisted(task: TaskId)  // reservation released, task not yet added by the thread
    | Listed(task: TaskId)    // added, its done callback not yet attached
    | Ending(raised: bool)    // before the submission is uncounted
    | Raising                 // an error is on its way out of the process lock
    | Leaving                 // lock released, before the process is uncounted

  predicate InLock(pc: Pc) { !pc.Entered? && !pc.Leaving? }

  predicate InSubmission(pc: Pc) { InLock(pc) && !pc.Locked? && !pc.Raising? }

  predicate HoldsReservation(pc: Pc) { pc.Reserved? || pc.Created? }

  // A callback task; `discarded` once _callback_finished ran for it.
  datatype Task = Task(ran: bool, done: bool, attached: bool, discarded: bool)

  datatype Closer =
    | NotClosing | WaitingProcesses | WaitingSubmissions | Settling | Checking
    | ShuttingExecutor | Closed | DidNotSettle

  datatype Life = Life(closing: bool, closed: bool, closer: Closer, executorDown: bool)
  datatype Work = Work(active: int, lock: Option<ProcId>, procs: map<ProcId, Pc>)
  datatype Callbacks = Callbacks(
    accepting: bool,
    submissions: int,            // _active_callback_submissions
    reservations: int,           // _callback_reservations
    futures: set<TaskId>,        // _callback_futures
    tasks: map<TaskId, Task>,    // every task ever created
    admitted: nat,               // how many submissions were admitted
    calls: nat,                  // how often event_callback was called
    max: nat)                    // _max_pending_callbacks

  datatype State = State(life: Life, work: Work, cb: Callbacks)

  function Initial(max: nat): State {
    State(Life(false, false, NotClosing, false), Work(0, None, map[]), Callbacks(true, 0, 0, {}, map[], 0, 0, max))
  }

  datatype Step =
    | Enter(p: ProcId)
    | TakeLock(p: ProcId)
    | Admit(p: ProcId)                           // the first section of _emit
    | CallCallback(p: ProcId)
    | CallbackReturns(p: ProcId, raised: bool)   // a plain result, an exception, or no running loop
    | Reserve(p: ProcId)                         // an awaitable was returned
    | CreateTask(p: ProcId, t: TaskId)
    | CreateFails(p: ProcId)
    | Release(p: ProcId)
    | List(p: ProcId)
    | Attach(p: ProcId)
    | SubmissionEnds(p: ProcId)
    | FinishProcess(p: ProcId)
    | Leave(p: ProcId)
    | TaskRuns(t: TaskId)
    | TaskEnds(t: TaskId)                        // returned, raised or was cancelled
    | Discard(t: TaskId)
    | AClose
    | ProcessesDone
    | SubmissionsDone
    | SettleDone
    | Check
    | ExecutorDown

  predicate At(w: Work, p: ProcId) { p in w.procs }

  predicate Enabled(s: State, step: Step) {
    match step
    case Enter(p) => p !in s.work.procs
    case TakeLock(p) => At(s.work, p) && s.work.procs[p].Entered? && s.work.lock.None?
    case Admit(p) => At(s.work, p) && s.work.procs[p].Locked?
    case CallCallback(p) => At(s.work, p) && s.work.procs[p].Admitted?
    case CallbackReturns(p, _) => At(s.work, p) && s.work.procs[p].Submitting?
    case Reserve(p) => At(s.work, p) && s.work.procs[p].Submitting?
    case CreateTask(p, t) => At(s.work, p) && s.work.procs[p].Reserved? && t !in s.cb.tasks
    case CreateFails(p) => At(s.work, p) && s.work.procs[p].Reserved?
    case Release(p) => At(s.work, p) && s.work.procs[p].Created?
    case List(p) => At(s.work, p) && s.work.procs[p].Unlisted?
    case Attach(p) => At(s.work, p) && s.work.procs[p].Listed? && s.work.procs[p].task in s.cb.tasks
    case SubmissionEnds(p) => At(s.work, p) && s.work.procs[p].Ending?
    case FinishProcess(p) => At(s.work, p) && (s.work.procs[p].Locked? || s.work.procs[p].Raising?)
    case Leave(p) => At(s.work, p) && s.work.procs[p].Leaving?
    case TaskRuns(t) => t in s.cb.tasks && !s.cb.tasks[t].ran && !s.cb.tasks[t].done
    case TaskEnds(t) => t in s.cb.tasks && !s.cb.tasks[t].done
    case Discard(t) => t in s.cb.tasks && s.cb.tasks[t].done && s.cb.tasks[t].attached && !s.cb.tasks[t].discarded
    case AClose => true
    case ProcessesDone => s.life.closer.WaitingProcesses? && s.work.active == 0
    case SubmissionsDone => s.life.closer.WaitingSubmissions? && s.cb.submissions == 0
    case SettleDone => s.life.closer.Settling? && s.cb.futures == {}
    case Check => s.life.closer.Checking?
    case ExecutorDown => s.life.closer.ShuttingExecutor?
  }

  function Go(w: Work, p: ProcId, pc: Pc): Work {
    w.(procs := w.procs[p := pc], lock := if InLock(pc) then Some(p) else None)
  }

  function SetTask(c: Callbacks, t: TaskId, task: Task): Callbacks { c.(tasks := c.tasks[t := task]) }

  function AdmitStep(s: State, p: ProcId): State {
    if !s.cb.accepting then s.(work := Go(s.work, p, Raising))
    else s.(work := Go(s.work, p, Admitted),
            cb := s.cb.(submissions := s.cb.submissions + 1, admitted := s.cb.admitted + 1))
  }

  function ReserveStep(s: State, p: ProcId): State {
    if |s.cb.futures| + s.cb.reservations >= s.cb.max then s.(work := Go(s.work, p, Ending(true)))
    else s.(work := Go(s.work, p, Reserved), cb := s.cb.(reservations := s.cb.reservations + 1))
  }

  function ACloseStep(s: State): State {
    if s.life.closed || !s.life.closer.NotClosing? then s
    else s.(life := s.life.(closing := true, closer := WaitingProcesses), cb := s.cb.(accepting := false))
  }

  function CheckStep(s: State): State {
    if s.cb.submissions != 0 || s.cb.futures != {} then s.(life := s.life.(closer := DidNotSettle, closed := true))
    else s.(life := s.life.(closer := ShuttingExecutor))
  }

  function Next(s: State, step: Step): State
    requires Enabled(s, step)
  {
    match step
    case Enter(p) =>
      if s.life.closing || s.life.closed then s
      else s.(work := s.work.(active := s.work.active + 1, procs := s.work.procs[p := Entered]))
    case TakeLock(p) => s.(work := Go(s.work, p, Locked))
    case Admit(p) => AdmitStep(s, p)
    case CallCallback(p) => s.(work := Go(s.work, p, Submitting), cb := s.cb.(calls := s.cb.calls + 1))
    case CallbackReturns(p, raised) => s.(work := Go(s.work, p, Ending(raised)))
    case Reserve(p) => ReserveStep(s, p)
    case CreateTask(p, t) =>
      s.(work := Go(s.work, p, Created(t)), cb := SetTask(s.cb, t, Task(false, false, false, false)))
    case CreateFails(p) =>
      s.(work := Go(s.work, p, Ending(true)), cb := s.cb.(reservations := s.cb.reservations - 1))
    case Release(p) =>
      s.(work := Go(s.work, p, Unlisted(s.work.procs[p].task)), cb := s.cb.(reservations := s.cb.reservations - 1))
    case List(p) =>
      var t := s.work.procs[p].task;
      s.(work := Go(s.work, p, Listed(t)), cb := s.cb.(futures := s.cb.futures + {t}))
    case Attach(p) =>
      var t := s.work.procs[p].task;
      s.(work := Go(s.work, p, Ending(false)), cb := SetTask(s.cb, t, s.cb.tasks[t].(attached := true)))
    case SubmissionEnds(p) =>
      s.(work := Go(s.work, p, if s.work.procs[p].raised then Raising else Locked),
         cb := s.cb.(submissions := s.cb.submissions - 1))
    case FinishProcess(p) => s.(work := Go(s.work, p, Leaving))
    case Leave(p) => s.(work := s.work.(active := s.work.active - 1, procs := s.work.procs - {p}))
    case TaskRuns(t) =>
      s.(cb := SetTask(s.cb.(futures := s.cb.futures + {t}), t, s.cb.tasks[t].(ran := true)))
    case TaskEnds(t) => s.(cb := SetTask(s.cb, t, s.cb.tasks[t].(done := true)))
    case Discard(t) =>
      s.(cb := SetTask(s.cb.(futures := s.cb.futures - {t}), t, s.cb.tasks[t].(discarded := true)))
    case AClose => ACloseStep(s)
    case ProcessesDone => s.(life := s.life.(closer := WaitingSubmissions))
    case SubmissionsDone => s.(life := s.life.(closer := Settling))
    case SettleDone => s.(life := s.life.(closer := Checking))
    case Check => CheckStep(s)
    case ExecutorDown => s.(life := Life(s.life.closing, true, Closed, true))
  }

  // ---------------------------------------------------------------------- invariant

  // The pc of the thread that holds the process lock.
  function Holder(w: Work): Option<Pc> {
    if w.lock.Some? && w.lock.value in w.procs then Some(w.procs[w.lock.value]) else None
  }

  // The task the lock holder is creating, until its done callback is attached.
  function Current(w: Work): Option<TaskId> {
    match Holder(w)
    case Some(Created(t)) => Some(t)
    case Some(Unlisted(t)) => Some(t)
    case Some(Listed(t)) => Some(t)
    case _ => None
  }

  predicate WorkOk(w: Work) {
    && w.active == |w.procs|
    && (w.lock.Some? ==> w.lock.value in w.procs && InLock(w.procs[w.lock.value]))
    && (forall p :: p in w.procs && InLock(w.procs[p]) ==> w.lock == Some(p))
  }

  predicate CountsOk(w: Work, c: Callbacks) {
    && c.submissions == (if Holder(w).Some? && InSubmission(Holder(w).value) then 1 else 0)
    && c.reservations == (if Holder(w).Some? && HoldsReservation(Holder(w).value) then 1 else 0)
    && c.admitted == c.calls + (if Holder(w) == Some(Admitted) then 1 else 0)
  }

  predicate TaskOk(c: Callbacks, current: Option<TaskId>, t: TaskId) {
    t in c.tasks &&
    var task := c.tasks[t];
    && (task.discarded ==> task.done && task.attached && t !in c.futures)
    && (!task.attached ==> current == Some(t))
    && (task.attached && !task.discarded ==> t in c.futures)
    && (task.attached ==> current != Some(t))
  }

  predicate TasksOk(w: Work, c: Callbacks) {
    && (forall t {:trigger TaskOk(c, Current(w), t)} :: t in c.tasks ==> TaskOk(c, Current(w), t))
    && c.futures <= c.tasks.Keys
    && (Current(w).Some? ==> Current(w).value in c.tasks)
    && (Holder(w).Some? && Holder(w).value.Listed? ==> Holder(w).value.task in c.futures)
  }

  function CurrentSet(w: Work): set<TaskId> {
    if Current(w).Some? then {Current(w).value} else {}
  }

  // The backlog bound, counting a callback task being created.
  predicate BacklogOk(w: Work, c: Callbacks) {
    |c.futures + CurrentSet(w)| + (if Holder(w) == Some(Reserved) then 1 else 0) <= c.max
  }

  predicate Past(closer: Closer) { !closer.NotClosing? && !closer.WaitingProcesses? }

  predicate Settled(closer: Closer) { closer.Checking? || closer.ShuttingExecutor? || closer.Closed? }

  predicate CloseOk(s: State) {
    && s.life.closing == !s.life.closer.NotClosing?
    && (s.life.closing ==> !s.cb.accepting)
    && (Past(s.life.closer) ==> s.work.active == 0)
    && (Settled(s.life.closer) ==> s.cb.futures == {})
    && !s.life.closer.DidNotSettle?
    && (s.life.closed <==> s.life.closer.Closed?)
    && (s.life.executorDown <==> s.life.closer.Closed?)
  }

  predicate Inv(s: State) {
    WorkOk(s.work) && CountsOk(s.work, s.cb) && TasksOk(s.work, s.cb) && BacklogOk(s.work, s.cb) && CloseOk(s)
  }

  // -------------------------------------------------------------------------- steps

  lemma GoKeepsWork(w: Work, p: ProcId, pc: Pc)
    requires WorkOk(w) && p in w.procs && (InLock(w.procs[p]) || (w.lock.None? && InLock(pc)))
    ensures WorkOk(Go(w, p, pc))
    ensures Holder(Go(w, p, pc)) == if InLock(pc) then Some(pc) else None
    ensures InLock(w.procs[p]) ==> Holder(w) == Some(w.procs[p])
  {
    assert Go(w, p, pc).procs.Keys == w.procs.Keys;
  }

  // A step of the thread inside the lock, or of one that takes it.
  predicate MovesThread(step: Step) {
    || step.TakeLock? || step.Admit? || step.CallCallback? || step.CallbackReturns? || step.Reserve? || step.CreateTask?
    || step.CreateFails? || step.Release? || step.List? || step.Attach? || step.SubmissionEnds? || step.FinishProcess?
  }

  lemma ThreadKeepsWork(s: State, step: Step)
    requires Inv(s) && Enabled(s, step) && MovesThread(step)
    ensures WorkOk(Next(s, step).work) && CountsOk(Next(s, step).work, Next(s, step).cb)
  {
    hide TasksOk, BacklogOk, CloseOk;
    var s' := Next(s, step);
    GoKeepsWork(s.work, step.p, s'.work.procs[step.p]);
    hide WorkOk;
  }

  lemma ThreadKeepsClose(s: State, step: Step)
    requires Inv(s) && Enabled(s, step) && MovesThread(step)
    ensures CloseOk(Next(s, step))
  {
    hide TasksOk, BacklogOk;
  }

  lemma ThreadKeepsTasks(s: State, step: Step)
    requires Inv(s) && Enabled(s, step) && MovesThread(step)
    ensures TasksOk(Next(s, step).work, Next(s, step).cb)
  {
    hide BacklogOk, CloseOk, CountsOk;
    var s' := Next(s, step);
    GoKeepsWork(s.work, step.p, s'.work.procs[step.p]);
    hide WorkOk;
    if step.CreateTask? || step.List? || step.Attach? {
      forall t | t in s'.cb.tasks ensures TaskOk(s'.cb, Current(s'.work), t) {
        if t in s.cb.tasks { assert TaskOk(s.cb, Current(s.work), t); }
      }
    } else {
      SameTasksKept(s.work, s'.work, s.cb, s'.cb);
    }
  }

  // A thread that goes on without touching the tasks keeps the one it is creating.
  lemma SameTasksKept(w: Work, w': Work, c: Callbacks, c': Callbacks)
    requires TasksOk(w, c) && c'.tasks == c.tasks && c'.futures == c.futures && Current(w') == Current(w)
    requires Holder(w').Some? && Holder(w').value.Listed? ==> Holder(w').value.task in c'.futures
    ensures TasksOk(w', c')
  {
    forall t | t in c'.tasks ensures TaskOk(c', Current(w'), t) { assert TaskOk(c, Current(w), t); }
  }

  // The one step that adds a task uses up the reservation.
  lemma CreatingKeepsBacklog(s: State, step: Step)
    requires Inv(s) && Enabled(s, step) && step.CreateTask?
    ensures BacklogOk(Next(s, step).work, Next(s, step).cb)
  {
    hide CloseOk, TasksOk;
    var s' := Next(s, step);
    GoKeepsWork(s.work, step.p, s'.work.procs[step.p]);
    hide WorkOk;
    assert s.cb.futures + CurrentSet(s.work) == s.cb.futures;
    assert s'.cb.futures + CurrentSet(s'.work) == s.cb.futures + {step.t};
  }

  lemma ReservingKeepsBacklog(s: State, step: Step)
    requires Inv(s) && Enabled(s, step) && (step.Reserve? || step.CreateFails?)
    ensures BacklogOk(Next(s, step).work, Next(s, step).cb)
  {
    hide CloseOk, TasksOk;
    var s' := Next(s, step);
    GoKeepsWork(s.work, step.p, s'.work.procs[step.p]);
    hide WorkOk;
    assert s.cb.futures + CurrentSet(s.work) == s.cb.futures;
    assert s'.cb.futures + CurrentSet(s'.work) == s.cb.futures;
  }

  lemma ListingKeepsBacklog(s: State, step: Step)
    requires Inv(s) && Enabled(s, step) && (step.Release? || step.List? || step.Attach?)
    ensures BacklogOk(Next(s, step).work, Next(s, step).cb)
  {
    hide CloseOk, CountsOk, TasksOk, BacklogOk;
    var s' := Next(s, step);
    GoKeepsWork(s.work, step.p, s'.work.procs[step.p]);
    hide WorkOk;
    assert Current(s.work) == Some(s.work.procs[step.p].task);
    assert s'.cb.futures <= s.cb.futures + {s.work.procs[step.p].task} && s'.cb.max == s.cb.max;
    assert Current(s'.work).Some? ==> Current(s'.work) == Current(s.work);
    BacklogCarried(s.work, s.cb, s'.work, s'.cb);
  }

  lemma BacklogCarried(w: Work, c: Callbacks, w': Work, c': Callbacks)
    requires BacklogOk(w, c) && c'.max == c.max && Holder(w') != Some(Reserved)
    requires c'.futures <= c.futures + CurrentSet(w) && (Current(w').Some? ==> Current(w') == Current(w))
    ensures BacklogOk(w', c')
  {
    SubsetSize(c'.futures + CurrentSet(w'), c.futures + CurrentSet(w));
  }

  lemma ThreadKeepsBacklog(s: State, step: Step)
    requires Inv(s) && Enabled(s, step) && MovesThread(step)
    ensures BacklogOk(Next(s, step).work, Next(s, step).cb)
  {
    if step.CreateTask? { CreatingKeepsBacklog(s, step); }
    else if step.Reserve? || step.CreateFails? { ReservingKeepsBacklog(s, step); }
    else if step.Release? || step.List? || step.Attach? { ListingKeepsBacklog(s, step); }
    else { OtherThreadKeepsBacklog(s, step); }
  }

  lemma OtherThreadKeepsBacklog(s: State, step: Step)
    requires Inv(s) && Enabled(s, step)
    requires || step.TakeLock? || step.Admit? || step.CallCallback? || step.CallbackReturns?
             || step.SubmissionEnds? || step.FinishProcess?
    ensures BacklogOk(Next(s, step).work, Next(s, step).cb)
  {
    hide CloseOk, TasksOk, CountsOk, BacklogOk;
    var s' := Next(s, step);
    GoKeepsWork(s.work, step.p, s'.work.procs[step.p]);
    hide WorkOk;
    assert Current(s'.work).None? && s'.cb.futures == s.cb.futures && s'.cb.max == s.cb.max;
    BacklogCarried(s.work, s.cb, s'.work, s'.cb);
  }

  // A step of a callback task or its done callback.
  predicate MovesTask(step: Step) { step.TaskRuns? || step.TaskEnds? || step.Discard? }

  lemma TaskStepKeepsTasks(s: State, step: Step)
    requires Inv(s) && Enabled(s, step) && MovesTask(step)
    ensures TasksOk(Next(s, step).work, Next(s, step).cb)
  {
    hide BacklogOk, CloseOk, CountsOk, WorkOk;
    var s' := Next(s, step);
    assert TaskOk(s.cb, Current(s.work), step.t);
    forall t | t in s'.cb.tasks ensures TaskOk(s'.cb, Current(s'.work), t) {
      assert TaskOk(s.cb, Current(s.work), t);
    }
  }

  // A task that has not run is in the set already, or is the one being created.
  lemma TaskStepKeepsBacklog(s: State, step: Step)
    requires Inv(s) && Enabled(s, step) && MovesTask(step)
    ensures BacklogOk(Next(s, step).work, Next(s, step).cb) && CloseOk(Next(s, step))
  {
    hide CountsOk;
    assert TaskOk(s.cb, Current(s.work), step.t);
    SubsetSize(Next(s, step).cb.futures + CurrentSet(s.work), s.cb.futures + CurrentSet(s.work));
  }

  lemma OtherKeepsInv(s: State, step: Step)
    requires Inv(s) && Enabled(s, step) && !MovesThread(step) && !MovesTask(step)
    ensures Inv(Next(s, step))
  {
    if step.Enter? || step.Leave? { EnteringKeepsInv(s, step); } else { ClosingKeepsInv(s, step); }
    hide Inv, Next, Enabled;
  }

  lemma EnteringKeepsInv(s: State, step: Step)
    requires Inv(s) && Enabled(s, step) && (step.Enter? || step.Leave?)
    ensures Inv(Next(s, step))
  {
    hide TasksOk, BacklogOk, Holder;
    WorkBooks(s, step);
    SameHolder(s.work, Next(s, step).work, s.cb);
    hide WorkOk;
  }

  lemma ClosingKeepsInv(s: State, step: Step)
    requires Inv(s) && Enabled(s, step) && !MovesThread(step) && !MovesTask(step) && !step.Enter? && !step.Leave?
    ensures Inv(Next(s, step))
  {
    hide TasksOk, BacklogOk;
    SameBacklog(s.work, s.cb, Next(s, step).cb);
  }

  lemma WorkBooks(s: State, step: Step)
    requires WorkOk(s.work) && Enabled(s, step) && (step.Enter? || step.Leave?)
    ensures WorkOk(Next(s, step).work) && Holder(Next(s, step).work) == Holder(s.work)
  {
    if step.Leave? { assert Next(s, step).work.procs.Keys == s.work.procs.Keys - {step.p}; }
  }

  lemma SameHolder(w: Work, w': Work, c: Callbacks)
    requires Holder(w') == Holder(w) && TasksOk(w, c) && BacklogOk(w, c)
    ensures TasksOk(w', c) && BacklogOk(w', c)
  {
    forall t | t in c.tasks ensures TaskOk(c, Current(w'), t) { assert TaskOk(c, Current(w), t); }
  }

  lemma SameBacklog(w: Work, c: Callbacks, c': Callbacks)
    requires c' == c.(accepting := c'.accepting) && TasksOk(w, c) && BacklogOk(w, c)
    ensures TasksOk(w, c') && BacklogOk(w, c')
  {
    forall t | t in c'.tasks ensures TaskOk(c', Current(w), t) { assert TaskOk(c, Current(w), t); }
  }

  lemma StepKeepsInv(s: State, step: Step)
    requires Inv(s) && Enabled(s, step)
    ensures Inv(Next(s, step))
  {
    if MovesThread(step) {
      ThreadKeepsWork(s, step);
      ThreadKeepsClose(s, step);
      ThreadKeepsTasks(s, step);
      ThreadKeepsBacklog(s, step);
    } else if MovesTask(step) {
      TaskStepKeepsTasks(s, step);
      TaskStepKeepsBacklog(s, step);
      assert Next(s, step).work == s.work;
    } else {
      OtherKeepsInv(s, step);
    }
    hide WorkOk, TasksOk, BacklogOk, CloseOk;
  }

  // ---------------------------------------------------------------------- whole runs

  predicate Runnable(s: State, steps: seq<Step>)
    decreases |steps|
  {
    steps == [] || (Enabled(s, steps[0]) && Runnable(Next(s, steps[0]), steps[1..]))
  }

  function Exec(s: State, steps: seq<Step>): State
    requires Runnable(s, steps)
    decreases |steps|
  {
    if steps == [] then s else Exec(Next(s, steps[0]), steps[1..])
  }

  lemma StepFrame(s: State, step: Step)
    requires Enabled(s, step)
    ensures Next(s, step).cb.max == s.cb.max
    ensures s.life.closing ==> Next(s, step).life.closing
    ensures !s.cb.accepting ==> Next(s, step).cb.admitted == s.cb.admitted
    ensures Next(s, step).cb.calls == s.cb.calls + if step.CallCallback? then 1 else 0
  {
    hide Go, SetTask;
    if step.CreateTask? || step.Attach? || MovesTask(step) { SetTaskFrame(s, step); }
  }

  lemma SetTaskFrame(s: State, step: Step)
    requires Enabled(s, step) && (step.CreateTask? || step.Attach? || MovesTask(step))
    ensures Next(s, step).cb.max == s.cb.max && Next(s, step).life == s.life
    ensures Next(s, step).cb.calls == s.cb.calls && Next(s, step).cb.admitted == s.cb.admitted
  {
    hide Go;
  }

  lemma {:induction false} RunKeepsInv(s: State, steps: seq<Step>)
    requires Inv(s) && Runnable(s, steps)
    ensures Inv(Exec(s, steps)) && Exec(s, steps).cb.max == s.cb.max
    decreases |steps|
  {
    if steps != [] {
      StepKeepsInv(s, steps[0]);
      StepFrame(s, steps[0]);
      hide Inv, Next;
      RunKeepsInv(Next(s, steps[0]), steps[1..]);
    }
  }

  lemma InitialInv(max: nat)
    ensures Inv(Initial(max))
  {
  }

  // Tasks created and not yet finished.
  function Pending(c: Callbacks): set<TaskId> {
    set t | t in c.tasks && !c.tasks[t].done
  }

  /** Neither the callback set nor the tasks still pending ever exceed
      max_pending_callbacks, although the reservation is given up before the
      thread lists its callback task. */
  lemma BacklogIsBounded(max: nat, steps: seq<Step>)
    requires Runnable(Initial(max), steps)
    ensures var c := Exec(Initial(max), steps).cb; |c.futures| <= max && |Pending(c)| <= max
  {
    InitialInv(max);
    RunKeepsInv(Initial(max), steps);
    var s := Exec(Initial(max), steps);
    hide Runnable, Exec;
    var all := s.cb.futures + CurrentSet(s.work);
    forall t | t in Pending(s.cb) ensures t in all { assert TaskOk(s.cb, Current(s.work), t); }
    SubsetSize(Pending(s.cb), all);
    SubsetSize(s.cb.futures, all);
  }

  predicate AllSettled(s: State) {
    && s.work.active == 0 && s.work.procs == map[] && s.cb.submissions == 0 && s.cb.futures == {}
    && forall t :: t in s.cb.tasks ==> s.cb.tasks[t].done && s.cb.tasks[t].discarded
  }

  lemma CloseSettles(s: State)
    requires Inv(s) && Settled(s.life.closer)
    ensures AllSettled(s)
  {
    assert s.work.procs.Keys == {};
    forall t | t in s.cb.tasks ensures s.cb.tasks[t].done && s.cb.tasks[t].discarded {
      assert TaskOk(s.cb, Current(s.work), t);
    }
  }

  /** The executor is shut down, and the close finishes, only when no process,
      submission or callback task is left; the check for unsettled submissions
      never fails. */
  lemma ClosedMeansSettled(max: nat, steps: seq<Step>)
    requires Runnable(Initial(max), steps)
    ensures var s := Exec(Initial(max), steps);
      && !s.life.closer.DidNotSettle?
      && (s.life.closed || s.life.executorDown || s.life.closer.ShuttingExecutor? ==> AllSettled(s))
      && (s.life.closed ==> s.life.executorDown)
  {
    InitialInv(max);
    RunKeepsInv(Initial(max), steps);
    var s := Exec(Initial(max), steps);
    hide Runnable, Exec;
    if Settled(s.life.closer) { CloseSettles(s); }
  }

  /** After the close nothing starts: no callback is called, no task created or run, in any continuation. */
  lemma {:induction false} NothingAfterClose(s: State, steps: seq<Step>)
    requires Inv(s) && s.life.closed && Runnable(s, steps)
    ensures Exec(s, steps) == s
    decreases |steps|
  {
    if steps != [] {
      CloseSettles(s);
      assert Next(s, steps[0]) == s;
      hide Inv, Next;
      NothingAfterClose(s, steps[1..]);
    }
  }

  // ----------------------------------------------------------- a failed process leaves

  // An error is on its way out of the process.
  predicate Failing(pc: Pc) { pc == Ending(true) || pc.Raising? || pc.Leaving? }

  // The thread emits nothing more before it leaves.
  predicate EmitsNoMore(steps: seq<Step>, p: ProcId) {
    steps == [] || steps[0] == Leave(p) || (steps[0] != Admit(p) && EmitsNoMore(steps[1..], p))
  }

  lemma FailingStays(s: State, step: Step, p: ProcId)
    requires Enabled(s, step) && p in s.work.procs && Failing(s.work.procs[p]) && step != Leave(p)
    ensures step != Admit(p)
    ensures p in Next(s, step).work.procs && Failing(Next(s, step).work.procs[p])
  {
    hide SetTask;
  }

  lemma {:induction false} FailingEmitsNoMore(s: State, steps: seq<Step>, p: ProcId)
    requires Runnable(s, steps) && p in s.work.procs && Failing(s.work.procs[p])
    ensures EmitsNoMore(steps, p)
    decreases |steps|
  {
    if steps != [] && steps[0] != Leave(p) {
      FailingStays(s, steps[0], p);
      hide Next, Enabled, Failing;
      FailingEmitsNoMore(Next(s, steps[0]), steps[1..], p);
    }
  }

  /** A thread whose callback raised, which was refused a submission or a reservation, or whose task
      could not be created, emits nothing more before it leaves, in any continuation. */
  lemma RaisedEmitsNoMore(s: State, step: Step, steps: seq<Step>)
    requires Enabled(s, step) && Runnable(Next(s, step), steps)
    requires || (step.CallbackReturns? && step.raised) || step.CreateFails? || (step.Admit? && !s.cb.accepting)
             || (step.Reserve? && |s.cb.futures| + s.cb.reservations >= s.cb.max)
    ensures EmitsNoMore(steps, step.p)
  {
    FailingEmitsNoMore(Next(s, step), steps, step.p);
  }

  /** One whose callback returned, or whose callback task is listed and watched, may emit again. */
  lemma ReturnedEmitsOn(s: State, step: Step)
    requires Enabled(s, step) && ((step.CallbackReturns? && !step.raised) || step.Attach?)
    ensures var ended := Next(s, step);
      Enabled(ended, SubmissionEnds(step.p)) && Enabled(Next(ended, SubmissionEnds(step.p)), Admit(step.p))
  {
  }

  // -------------------------------------------------------------- callbacks after asking

  // The threads that were admitted and have still to call event_callback.
  function AtAdmitted(w: Work): set<ProcId> { set p | p in w.procs && w.procs[p].Admitted? }

  // How often a run calls event_callback.
  function CallsIn(steps: seq<Step>): nat {
    if steps == [] then 0 else (if steps[0].CallCallback? then 1 else 0) + CallsIn(steps[1..])
  }

  lemma AdmittedIsHolder(s: State)
    requires Inv(s)
    ensures |AtAdmitted(s.work)| == if Holder(s.work) == Some(Admitted) then 1 else 0
    ensures |AtAdmitted(s.work)| == s.cb.admitted - s.cb.calls
  {
    forall p | p in AtAdmitted(s.work) ensures s.work.lock == Some(p) { }
    if Holder(s.work) == Some(Admitted) {
      assert AtAdmitted(s.work) == {s.work.lock.value};
    } else {
      assert AtAdmitted(s.work) == {};
    }
  }

  lemma {:induction false} CallsCounted(s: State, steps: seq<Step>)
    requires Runnable(s, steps)
    ensures Exec(s, steps).cb.calls == s.cb.calls + CallsIn(steps)
    decreases |steps|
  {
    if steps != [] {
      StepFrame(s, steps[0]);
      hide Next;
      CallsCounted(Next(s, steps[0]), steps[1..]);
    }
  }

  /** Once close was asked for, no submission is admitted in any continuation. */
  lemma {:induction false} NothingAdmittedAfterAsking(s: State, steps: seq<Step>)
    requires Inv(s) && s.life.closing && Runnable(s, steps)
    ensures Exec(s, steps).cb.admitted == s.cb.admitted
    decreases |steps|
  {
    if steps != [] {
      StepKeepsInv(s, steps[0]);
      StepFrame(s, steps[0]);
      assert !s.cb.accepting;
      hide Inv, Next;
      NothingAdmittedAfterAsking(Next(s, steps[0]), steps[1..]);
    }
  }

  /** From then on event_callback is called exactly once by each thread that had been admitted
      and takes its step; there is at most one such thread, so at most one late call. */
  lemma LateCallsAreAdmitted(s: State, steps: seq<Step>)
    requires Inv(s) && s.life.closing && Runnable(s, steps)
    ensures var s' := Exec(s, steps);
      && s'.cb.calls == s.cb.calls + CallsIn(steps)
      && CallsIn(steps) + |AtAdmitted(s'.work)| == |AtAdmitted(s.work)| <= 1
  {
    NothingAdmittedAfterAsking(s, steps);
    CallsCounted(s, steps);
    RunKeepsInv(s, steps);
    AdmittedIsHolder(s);
    AdmittedIsHolder(Exec(s, steps));
    hide Runnable, Exec, CallsIn, AtAdmitted, Inv;
  }

  /** A closing pipeline makes no further call of event_callback, in any continuation, if and
      only if no thread stands between its admission and its call. */
  lemma NoCallbackAfterAskingIff(s: State)
    requires Inv(s) && s.life.closing
    ensures (forall steps {:trigger Runnable(s, steps)} :: Runnable(s, steps) ==> Exec(s, steps).cb.calls == s.cb.calls)
       <==> AtAdmitted(s.work) == {}
  {
    if AtAdmitted(s.work) == {} {
      forall steps | Runnable(s, steps) ensures Exec(s, steps).cb.calls == s.cb.calls {
        LateCallsAreAdmitted(s, steps);
      }
    } else {
      var p :| p in AtAdmitted(s.work);
      OneMoreCall(s, p);
      assert Exec(s, [CallCallback(p)]).cb.calls != s.cb.calls;
    }
    hide Exec, Runnable, Inv;
  }

  lemma OneMoreCall(s: State, p: ProcId)
    requires p in AtAdmitted(s.work)
    ensures Runnable(s, [CallCallback(p)]) && Exec(s, [CallCallback(p)]).cb.calls == s.cb.calls + 1
  {
    assert [CallCallback(p)][1..] == [];
  }

  /** Once every process has ended the calls are over for good: from the wait for submissions
      on, event_callback is not called again. */
  lemma CallsEndWithProcesses(s: State, steps: seq<Step>)
    requires Inv(s) && Past(s.life.closer) && Runnable(s, steps)
    ensures Exec(s, steps).cb.calls == s.cb.calls
  {
    assert s.work.procs.Keys == {};
    assert AtAdmitted(s.work) == {};
    LateCallsAreAdmitted(s, steps);
  }

  // Thread 1 is admitted and has not called yet; close was asked for.
  const AskedMeanwhile := State(
    Life(true, false, WaitingProcesses, false), Work(1, Some(1), map[1 := Admitted]),
    Callbacks(false, 1, 0, {}, map[], 1, 0, 1))

  lemma MeanwhileIsReached()
    ensures var asked := [Enter(1), TakeLock(1), Admit(1), AClose];
      Runnable(Initial(1), asked) && Exec(Initial(1), asked) == AskedMeanwhile
  {
    var entered := Next(Initial(1), Enter(1));
    var locked := Next(entered, TakeLock(1));
    var admitted := Next(locked, Admit(1));
    assert Next(admitted, AClose) == AskedMeanwhile;
    assert [AClose] + [] == [AClose] && [Admit(1)] + [AClose] == [Admit(1), AClose];
    assert [TakeLock(1)] + [Admit(1), AClose] == [TakeLock(1), Admit(1), AClose];
    assert [Enter(1)] + [TakeLock(1), Admit(1), AClose] == [Enter(1), TakeLock(1), Admit(1), AClose];
    RunCons(admitted, AClose, []);
    hide Next;
    RunCons(locked, Admit(1), [AClose]);
    RunCons(entered, TakeLock(1), [Admit(1), AClose]);
    RunCons(Initial(1), Enter(1), [TakeLock(1), Admit(1), AClose]);
  }

  /** A concrete late call: a thread is admitted, close is asked for, the thread calls. */
  lemma CallbackAfterAsking()
    ensures var asked := [Enter(1), TakeLock(1), Admit(1), AClose]; var call := [CallCallback(1)];
      && Runnable(Initial(1), asked) && Exec(Initial(1), asked).life.closing
      && Runnable(Exec(Initial(1), asked), call)
      && Exec(Exec(Initial(1), asked), call).cb.calls == Exec(Initial(1), asked).cb.calls + 1
  {
    MeanwhileIsReached();
    hide Exec, Runnable;
    OneMoreCall(AskedMeanwhile, 1);
  }

  lemma RunCons(s: State, step: Step, rest: seq<Step>)
    requires Enabled(s, step) && Runnable(Next(s, step), rest)
    ensures Runnable(s, [step] + rest) && Exec(s, [step] + rest) == Exec(Next(s, step), rest)
  {
    assert ([step] + rest)[1..] == rest;
    hide Enabled, Next;
  }
}
