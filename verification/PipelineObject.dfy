/**
 The sections of the frame pipeline under its conditions, on its mutable fields,
 each tied to a step of the machine.  Where every thread is, is ghost here.
 */
module PipelineObject {
  import opened Prelude
  import opened PipelineDrain

  class FramePipeline {
    var closing: bool
    var closed: bool
    var activeProcesses: int
    var accepting: bool
    var submissions: int
    var reservations: int
    var futures: set<TaskId>
    const maxPending: nat
    ghost var closer: Closer
    ghost var executorDown: bool
    ghost var lock: Option<ProcId>
    ghost var procs: map<ProcId, Pc>
    ghost var tasks: map<TaskId, Task>
    ghost var admissions: nat
    ghost var calls: nat

    ghost function View(): State
      reads this
    {
      State(Life(closing, closed, closer, executorDown), Work(activeProcesses, lock, procs),
            Callbacks(accepting, submissions, reservations, futures, tasks, admissions, calls, maxPending))
    }

    ghost predicate Valid()
      reads this
    {
      Inv(View())
    }

    constructor (maxPending: nat)
      ensures Valid() && View() == Initial(maxPending)
    {
      this.maxPending := maxPending;
      closing, closed, accepting := false, false, true;
      activeProcesses, submissions, reservations, futures := 0, 0, 0, {};
      closer, executorDown, lock, procs, tasks := NotClosing, false, None, map[], map[];
      admissions, calls := 0, 0;
    }

    // The head of process: refused once closing.
    method EnterProcess(p: ProcId) returns (admitted: bool)
      requires Valid() && p !in procs
      modifies this`activeProcesses, this`procs
      ensures Valid() && View() == Next(old(View()), Enter(p))
      ensures admitted <==> !closing && !closed
      ensures activeProcesses == old(activeProcesses) + if admitted then 1 else 0
    {
      StepKeepsInv(View(), Enter(p));
      admitted := !closing && !closed;
      if admitted {
        activeProcesses := activeProcesses + 1;
        procs := procs[p := Entered];
      }
    }

    // The head of _emit; the callback is called after it, outside the section.
    method BeginSubmission(p: ProcId) returns (admitted: bool)
      requires Valid() && Enabled(View(), Admit(p))
      modifies this`submissions, this`procs, this`lock, this`admissions
      ensures Valid() && View() == AdmitStep(old(View()), p)
      ensures admitted <==> accepting
      ensures closing ==> !admitted
      ensures submissions == old(submissions) + if admitted then 1 else 0
      ensures admitted <==> p in AtAdmitted(View().work)
    {
      ghost var after := AdmitStep(View(), p);
      AdmissionMoves(View(), p);
      hide Inv, Go, AtAdmitted, Enabled;
      admitted := accepting;
      if admitted { submissions := submissions + 1; }
      procs, lock, admissions := after.work.procs, after.work.lock, after.cb.admitted;
    }

    // The backlog check of _emit.
    method ReserveTask(p: ProcId) returns (reserved: bool)
      requires Valid() && Enabled(View(), Reserve(p))
      modifies this`reservations, this`procs, this`lock
      ensures Valid() && View() == Next(old(View()), Reserve(p))
      ensures reserved <==> |futures| < maxPending
    {
      StepKeepsInv(View(), Reserve(p));
      NoOtherReservation(View(), p);
      ghost var after := ReserveStep(View(), p);
      hide Inv, Go;
      reserved := |futures| + reservations < maxPending;
      if reserved { reservations := reservations + 1; }
      procs, lock := after.work.procs, after.work.lock;
    }

    // _callback_finished
    method CallbackFinished(t: TaskId)
      requires Valid() && Enabled(View(), Discard(t))
      modifies this`futures, this`tasks
      ensures Valid() && View() == Next(old(View()), Discard(t))
      ensures t in old(futures) && futures == old(futures) - {t}
    {
      StepKeepsInv(View(), Discard(t));
      AttachedIsListed(View(), t);
      ghost var after := Next(View(), Discard(t));
      hide Inv;
      futures := futures - {t};
      tasks := after.cb.tasks;
    }

    // aclose, up to its wait for the close task.
    method BeginClose() returns (first: bool)
      requires Valid()
      modifies this`closing, this`accepting, this`closer
      ensures Valid() && View() == Next(old(View()), AClose)
      ensures first <==> !old(closing)
      ensures closing && !accepting
    {
      StepKeepsInv(View(), AClose);
      first := !closing && !closed;
      if first {
        closing := true;
        accepting := false;
        closer := WaitingProcesses;
      }
    }

    // The check after settling; it never fails.
    method CheckSettled() returns (settled: bool)
      requires Valid() && closer.Checking?
      modifies this`closer
      ensures Valid() && View() == Next(old(View()), Check)
      ensures settled && AllSettled(View())
    {
      StepKeepsInv(View(), Check);
      CloseSettles(View());
      settled := submissions == 0 && futures == {};
      closer := ShuttingExecutor;
    }
  }

  // While a thread submits, no other thread holds a reservation.
  lemma NoOtherReservation(s: State, p: ProcId)
    requires Inv(s) && Enabled(s, Reserve(p))
    ensures s.cb.reservations == 0
  {
    assert Holder(s.work) == Some(s.work.procs[p]);
  }

  lemma AdmissionMoves(s: State, p: ProcId)
    requires Inv(s) && Enabled(s, Admit(p))
    ensures Inv(AdmitStep(s, p))
    ensures s.cb.accepting <==> p in AtAdmitted(AdmitStep(s, p).work)
    ensures s.life.closing ==> !s.cb.accepting
  {
    StepKeepsInv(s, Admit(p));
  }

  lemma AttachedIsListed(s: State, t: TaskId)
    requires Inv(s) && Enabled(s, Discard(t))
    ensures t in s.cb.futures
  {
    assert TaskOk(s.cb, Current(s.work), t);
  }
}
