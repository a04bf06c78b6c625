/**
 The registry sections of the camera worker manager on its mutable fields, each
 tied to a step of the machine.  Tasks, locks held and workers of the past are
 ghost here.
 */
module ManagerObject {
  import opened Prelude
  import opened Manager
  import opened ManagerInvariant

  class CameraWorkerManager {
    var workers: map<Cam, WorkerId>
    var cameraLocks: map<Cam, LockId>
    var admissionClosed: bool
    const maxActiveWorkers: nat
    ghost var all: map<WorkerId, Worker>
    ghost var usedLocks: set<LockId>
    ghost var holder: map<LockId, TaskId>
    ghost var tasks: map<TaskId, Task>
    ghost var shutdown: Shutdown

    ghost function View(): State
      reads this
    {
      State(workers, all, cameraLocks, usedLocks, holder, tasks, admissionClosed, shutdown, maxActiveWorkers)
    }

    ghost predicate Valid()
      reads this
    {
      Inv(View())
    }

    constructor (maxActiveWorkers: nat)
      ensures Valid() && View() == Initial(maxActiveWorkers)
    {
      this.maxActiveWorkers := maxActiveWorkers;
      workers, cameraLocks, admissionClosed := map[], map[], false;
      all, usedLocks, holder, tasks, shutdown := map[], {}, map[], map[], NotAsked;
      new;
      InitialInv(maxActiveWorkers);
    }

    // _get_camera_lock; newLock: the lock object made if the camera has none.
    method GetCameraLock(t: TaskId, camera: Cam, newLock: LockId) returns (lock: LockId)
      requires Valid() && Enabled(View(), DoGetLock(t, newLock)) && tasks[t].camera == camera
      modifies this`cameraLocks, this`usedLocks, this`tasks
      ensures Valid() && View() == Next(old(View()), DoGetLock(t, newLock))
      ensures camera in cameraLocks && cameraLocks[camera] == lock
      ensures forall c :: c in cameraLocks && cameraLocks[c] == lock ==> c == camera
    {
      KeptGetLock(View(), DoGetLock(t, newLock));
      ghost var after := Next(View(), DoGetLock(t, newLock));
      if camera in cameraLocks {
        lock := cameraLocks[camera];
      } else {
        lock := newLock;
        cameraLocks := cameraLocks[camera := newLock];
      }
      usedLocks, tasks := after.usedLocks, after.tasks;
    }

    // The admission section of start_camera and restart_camera.
    method AdmitWorker(t: TaskId, camera: Cam, w: WorkerId) returns (outcome: Option<Outcome>)
      requires Valid() && Enabled(View(), DoAdmit(t, w)) && tasks[t].camera == camera
      modifies this`workers, this`all, this`holder, this`tasks
      ensures Valid() && View() == Next(old(View()), DoAdmit(t, w))
      ensures outcome == if admissionClosed then Some(Raised)
                         else if |old(workers)| >= maxActiveWorkers then Some(NoCapacity) else None
      ensures outcome.None? ==> camera !in old(workers) && workers == old(workers)[camera := w]
      ensures outcome.None? ==> |workers| <= maxActiveWorkers
      ensures outcome.Some? ==> workers == old(workers)
    {
      KeptAdmit(View(), DoAdmit(t, w));
      assert TaskOk(View(), t);
      ghost var after := Next(View(), DoAdmit(t, w));
      if admissionClosed {
        outcome := Some(Raised);
      } else if |workers| >= maxActiveWorkers {
        outcome := Some(NoCapacity);
      } else {
        outcome := None;
        workers := workers[camera := w];
      }
      all, holder, tasks := after.all, after.holder, after.tasks;
    }

    // _remove_worker
    method RemoveWorker(t: TaskId, camera: Cam, w: WorkerId, failures: bool)
      requires Valid() && Enabled(View(), DoRemove(t, failures)) && tasks[t].camera == camera && tasks[t].pc.w == w
      modifies this`workers, this`holder, this`tasks
      ensures Valid() && View() == Next(old(View()), DoRemove(t, failures))
      ensures workers == old(workers) - {camera} && HasEnded(View(), w)
    {
      KeptRemove(View(), DoRemove(t, failures));
      assert TaskOk(View(), t);
      RemoveMoves(View(), DoRemove(t, failures));
      ghost var after := Next(View(), DoRemove(t, failures));
      if camera in workers && workers[camera] == w {
        workers := workers - {camera};
      }
      holder, tasks := after.holder, after.tasks;
    }

    // The section of shutdown that closes admission.
    method CloseAdmission()
      requires Valid()
      modifies this`admissionClosed, this`shutdown
      ensures Valid() && View() == Next(old(View()), AskShutdown)
      ensures admissionClosed && workers == old(workers)
    {
      KeptOutside(View(), AskShutdown);
      admissionClosed := true;
      if shutdown.NotAsked? { shutdown := Asked; }
    }
  }
}
