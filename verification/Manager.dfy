/**
 The camera worker manager as a machine of atomic steps.  A step is one stretch
 of a coroutine between two awaits; the registry lock is only ever held inside
 one step.  Any caller task may be cancelled at any await.  The scheduler picks
 the next step freely.
 */
module Manager {
  import opened Prelude

  type Cam = nat    // camera ids, compared only for equality
  type Def = nat    // camera definitions, likewise
  type WorkerId = nat
  type TaskId = nat
  type LockId = nat

  // The supervisor task of a worker; `crashed` when `_run` itself raised.
  datatype Supervisor = Live | Ended(crashed: bool)
  datatype Worker = Worker(camera: Cam, definition: Def, sup: Supervisor)

  datatype Kind = Start | Stop | Restart | Shut

  // What a task does once the worker it stopped is out of the registry.
  datatype Then = ThenAdmit | ThenReturn | ThenRaise

  datatype Outcome = Returned | Raised | NoCapacity

  datatype Pc =
    | GetLock                                        // before _get_camera_lock
    | Acquire(lock: LockId)                          // waiting for the camera lock
    | Lookup(lock: LockId)                           // before _get_owned_worker
    | Stopping(lock: LockId, w: WorkerId, next: Then)// awaiting worker.stop()
    | Removing(lock: LockId, w: WorkerId, next: Then)// before _remove_worker
    | Admit(lock: LockId)                            // before the admission section
    | Starting(lock: LockId, w: WorkerId)            // awaiting worker.start()
    | Undoing(lock: LockId, w: WorkerId)             // start() was cancelled and awaits its own stop()
    | Waiting(lock: LockId, w: WorkerId)             // start() raised; awaiting worker.wait()
    | Check(lock: LockId, w: WorkerId)               // before _is_admission_closed
    | Finished(outcome: Outcome)

  datatype Task = Task(kind: Kind, camera: Cam, definition: Def, pc: Pc)

  datatype Shutdown = NotAsked | Asked | Draining(tasks: map<Cam, TaskId>) | Done

  datatype State = State(
    workers: map<Cam, WorkerId>,           // _workers
    all: map<WorkerId, Worker>,            // every worker ever created
    locks: map<Cam, LockId>,               // _camera_locks, weak values
    usedLocks: set<LockId>,
    holder: map<LockId, TaskId>,
    tasks: map<TaskId, Task>,
    closed: bool,                          // _admission_closed
    shutdown: Shutdown,
    capacity: nat)                         // _max_active_workers

  function Initial(capacity: nat): State {
    State(map[], map[], map[], {}, map[], map[], false, NotAsked, capacity)
  }

  predicate Unfinished(t: Task) { !t.pc.Finished? }

  function LockOf(pc: Pc): Option<LockId> {
    if pc.GetLock? || pc.Finished? then None else Some(pc.lock)
  }

  // Inside the `async with camera_lock` block.
  predicate Inside(pc: Pc) { !pc.GetLock? && !pc.Acquire? && !pc.Finished? }

  function WorkerOf(pc: Pc): Option<WorkerId> {
    if pc.Stopping? || pc.Removing? || pc.Starting? || pc.Undoing? || pc.Waiting? || pc.Check? then Some(pc.w) else None
  }

  datatype Step =
    | Spawn(t: TaskId, kind: Kind, camera: Cam, definition: Def)
    | DoGetLock(t: TaskId, newLock: LockId)
    | DoAcquire(t: TaskId)
    | DoLookup(t: TaskId, running: bool)             // running: the state read is STARTING, RUNNING or RECONNECTING
    | DoStopped(t: TaskId)
    | DoRemove(t: TaskId, failures: bool)            // failures: the stopped worker has shutdown_failures
    | DoAdmit(t: TaskId, newWorker: WorkerId)
    | DoStarted(t: TaskId, ok: bool)
    | DoUndone(t: TaskId)
    | DoWaited(t: TaskId)
    | DoCheck(t: TaskId)
    | Cancel(t: TaskId)
    | SupervisorEnds(w: WorkerId, crashed: bool)
    | Collect(camera: Cam)                           // a lock nobody references is garbage collected
    | AskShutdown
    | Snapshot(tasks: map<Cam, TaskId>)
    | ShutdownEnds

  // ------------------------------------------------------------------------ the steps

  function At(s: State, t: TaskId, pc: Pc): State
    requires t in s.tasks
  {
    s.(tasks := s.tasks[t := s.tasks[t].(pc := pc)])
  }

  // Leave the camera lock, if held, and finish.
  function Finish(s: State, t: TaskId, outcome: Outcome): State
    requires t in s.tasks
  {
    var pc := s.tasks[t].pc;
    var s' := At(s, t, Finished(outcome));
    if Inside(pc) then s'.(holder := s'.holder - {pc.lock}) else s'
  }

  predicate HasEnded(s: State, w: WorkerId) { w in s.all && s.all[w].sup.Ended? }

  predicate HasCrashed(s: State, w: WorkerId) { w in s.all && s.all[w].sup == Ended(true) }

  ghost predicate Enabled(s: State, step: Step) {
    match step
    case Spawn(t, kind, _, _) => t !in s.tasks && kind != Shut
    case DoGetLock(t, l) => t in s.tasks && s.tasks[t].pc.GetLock? && l !in s.usedLocks
    case DoAcquire(t) => t in s.tasks && s.tasks[t].pc.Acquire? && s.tasks[t].pc.lock !in s.holder
    case DoLookup(t, running) => t in s.tasks && s.tasks[t].pc.Lookup?
      && (running ==> s.tasks[t].camera in s.workers)
    case DoStopped(t) => t in s.tasks && s.tasks[t].pc.Stopping? && HasEnded(s, s.tasks[t].pc.w)
    case DoRemove(t, _) => t in s.tasks && s.tasks[t].pc.Removing?
    case DoAdmit(t, w) => t in s.tasks && s.tasks[t].pc.Admit? && w !in s.all
    case DoStarted(t, _) => t in s.tasks && s.tasks[t].pc.Starting?
    case DoUndone(t) => t in s.tasks && s.tasks[t].pc.Undoing? && HasEnded(s, s.tasks[t].pc.w)
    case DoWaited(t) => t in s.tasks && s.tasks[t].pc.Waiting? && HasEnded(s, s.tasks[t].pc.w)
    case DoCheck(t) => t in s.tasks && s.tasks[t].pc.Check?
    // The shutdown task and its children are shielded and never cancelled.
    case Cancel(t) => t in s.tasks && Unfinished(s.tasks[t]) && s.tasks[t].kind != Shut
    case SupervisorEnds(w, _) => w in s.all && s.all[w].sup.Live?
    case Collect(c) => c in s.locks && forall t :: t in s.tasks ==> LockOf(s.tasks[t].pc) != Some(s.locks[c])
    case AskShutdown => true
    case Snapshot(tasks) => s.shutdown.Asked? && tasks.Keys == s.workers.Keys
      && (forall c :: c in tasks ==> tasks[c] !in s.tasks)
      && (forall c, d :: c in tasks && d in tasks && tasks[c] == tasks[d] ==> c == d)
    case ShutdownEnds => s.shutdown.Draining? && forall c :: c in s.shutdown.tasks ==>
      s.shutdown.tasks[c] in s.tasks && !Unfinished(s.tasks[s.shutdown.tasks[c]])
  }

  function GetLockStep(s: State, t: TaskId, newLock: LockId): State
    requires t in s.tasks
  {
    var c := s.tasks[t].camera;
    if c in s.locks then At(s, t, Acquire(s.locks[c]))
    else At(s, t, Acquire(newLock)).(locks := s.locks[c := newLock], usedLocks := s.usedLocks + {newLock})
  }

  function LookupStep(s: State, t: TaskId, running: bool): State
    requires t in s.tasks && s.tasks[t].pc.Lookup?
  {
    var task := s.tasks[t];
    var l := task.pc.lock;
    if task.camera !in s.workers then
      (if task.kind == Start || task.kind == Restart then At(s, t, Admit(l)) else Finish(s, t, Returned))
    else
      var w := s.workers[task.camera];
      match task.kind
      case Start => if running then Finish(s, t, Returned) else At(s, t, Stopping(l, w, ThenAdmit))
      case Restart => At(s, t, Stopping(l, w, ThenAdmit))
      case _ => At(s, t, Stopping(l, w, ThenReturn))
  }

  function RemoveStep(s: State, t: TaskId, failures: bool): State
    requires t in s.tasks && s.tasks[t].pc.Removing?
  {
    var task := s.tasks[t];
    var s' := if task.camera in s.workers && s.workers[task.camera] == task.pc.w
              then s.(workers := s.workers - {task.camera}) else s;
    match task.pc.next
    case ThenAdmit => if failures then Finish(s', t, Raised) else At(s', t, Admit(task.pc.lock))
    case ThenReturn => Finish(s', t, Returned)
    case ThenRaise => Finish(s', t, Raised)
  }

  // The admission section and start() up to its first await: the supervisor exists from here on.
  function AdmitStep(s: State, t: TaskId, w: WorkerId): State
    requires t in s.tasks && s.tasks[t].pc.Admit?
  {
    var task := s.tasks[t];
    if s.closed then Finish(s, t, Raised)
    else if |s.workers| >= s.capacity then Finish(s, t, NoCapacity)
    else At(s, t, Starting(task.pc.lock, w)).(
      workers := s.workers[task.camera := w],
      all := s.all[w := Worker(task.camera, task.definition, Live)])
  }

  function CancelStep(s: State, t: TaskId): State
    requires t in s.tasks
  {
    var pc := s.tasks[t].pc;
    match pc
    case Starting(l, w) => At(s, t, Undoing(l, w))
    case Undoing(l, w) => At(s, t, Waiting(l, w))
    case _ => Finish(s, t, Raised)
  }

  ghost function Next(s: State, step: Step): State
    requires Enabled(s, step)
  {
    match step
    case Spawn(t, kind, c, d) => s.(tasks := s.tasks[t := Task(kind, c, d, GetLock)])
    case DoGetLock(t, l) => GetLockStep(s, t, l)
    case DoAcquire(t) => At(s, t, Lookup(s.tasks[t].pc.lock)).(holder := s.holder[s.tasks[t].pc.lock := t])
    case DoLookup(t, running) => LookupStep(s, t, running)
    case DoStopped(t) =>
      var pc := s.tasks[t].pc;
      if HasCrashed(s, pc.w) then Finish(s, t, Raised) else At(s, t, Removing(pc.lock, pc.w, pc.next))
    case DoRemove(t, failures) => RemoveStep(s, t, failures)
    case DoAdmit(t, w) => AdmitStep(s, t, w)
    case DoStarted(t, ok) =>
      var pc := s.tasks[t].pc;
      At(s, t, if ok then Check(pc.lock, pc.w) else Waiting(pc.lock, pc.w))
    case DoUndone(t) => At(s, t, Waiting(s.tasks[t].pc.lock, s.tasks[t].pc.w))
    case DoWaited(t) =>
      var pc := s.tasks[t].pc;
      if HasCrashed(s, pc.w) then Finish(s, t, Raised) else At(s, t, Removing(pc.lock, pc.w, ThenRaise))
    case DoCheck(t) =>
      var pc := s.tasks[t].pc;
      if s.closed then At(s, t, Stopping(pc.lock, pc.w, ThenRaise)) else Finish(s, t, Returned)
    case Cancel(t) => CancelStep(s, t)
    case SupervisorEnds(w, crashed) => s.(all := s.all[w := s.all[w].(sup := Ended(crashed))])
    case Collect(c) => s.(locks := s.locks - {c})
    case AskShutdown => s.(closed := true, shutdown := if s.shutdown.NotAsked? then Asked else s.shutdown)
    case Snapshot(ts) =>
      s.(shutdown := Draining(ts),
         tasks := s.tasks + map t | t in ts.Values :: Task(Shut, CameraFor(ts, t), 0, GetLock))
    case ShutdownEnds => s.(shutdown := Done)
  }

  ghost function CameraFor(tasks: map<Cam, TaskId>, t: TaskId): Cam
    requires t in tasks.Values
  {
    var c :| c in tasks && tasks[c] == t; c
  }
}
