/**
 The lock sections of the reconnecting capture on its mutable fields, each tied
 to a step of the machine.  Where every thread and candidate is, is ghost here.
 */
module CaptureObject {
  import opened Prelude
  import opened Capture

  class ResilientCapture {
    var cap: Option<CandId>
    var isClosed: bool
    var connectGeneration: nat
    ghost var threads: map<Tid, Pc>
    ghost var candidates: map<CandId, Candidate>
    ghost var installs: seq<nat>

    ghost function View(): State
      reads this
    {
      State(cap, isClosed, connectGeneration, threads, candidates, installs)
    }

    ghost predicate Valid()
      reads this
    {
      Inv(View())
    }

    constructor ()
      ensures Valid() && View() == Initial()
    {
      cap, isClosed, connectGeneration := None, false, 0;
      threads, candidates, installs := map[], map[], [];
    }

    // The second lock section of read: draw a generation and take the unusable capture out, or go on to read.
    method Decide(t: Tid, isOpen: bool) returns (stale: Option<CandId>, generation: Option<nat>)
      requires Valid() && Enabled(View(), Second(t, isOpen))
      modifies this
      ensures Valid() && View() == Next(old(View()), Second(t, isOpen))
      ensures generation.Some? <==> !old(isClosed) && !(old(cap).Some? && isOpen)
      ensures generation.Some? ==> generation.value == old(connectGeneration) + 1 && stale == old(cap) && cap.None?
    {
      StepKeepsInv(View(), Second(t, isOpen));
      ghost var after := Next(View(), Second(t, isOpen));
      stale, generation := None, None;
      if !isClosed && (cap.None? || !isOpen) {
        stale := cap;
        cap := None;
        connectGeneration := connectGeneration + 1;
        generation := Some(connectGeneration);
      }
      threads, candidates := after.threads, after.candidates;
    }

    // The lock section of _connect.
    method TryInstall(t: Tid, candidate: CandId, generation: nat, isOpen: bool)
      returns (install: bool, replaced: Option<CandId>)
      requires Valid() && t in threads && threads[t] == Installing(candidate, generation, isOpen)
      modifies this
      ensures Valid() && View() == Next(old(View()), Step.Install(t))
      ensures install <==> isOpen && !old(isClosed) && generation == old(connectGeneration)
      ensures install ==> cap == Some(candidate) && forall g :: g in old(installs) ==> g < generation
      ensures replaced.None? && (!install ==> cap == old(cap))
    {
      StepKeepsInv(View(), Step.Install(t));
      assert ThreadOk(View(), t);
      ghost var after := Next(View(), Step.Install(t));
      replaced := None;
      install := isOpen && !isClosed && generation == connectGeneration;
      if install {
        replaced := cap;
        cap := Some(candidate);
      }
      threads, candidates, installs := after.threads, after.candidates, after.installs;
    }

    // The lock section of a failed read.
    method TakeFailed(t: Tid, success: bool) returns (failed: Option<CandId>)
      requires Valid() && Enabled(View(), ReadFrame(t, success))
      modifies this
      ensures Valid() && View() == Next(old(View()), ReadFrame(t, success))
      ensures failed == if old(isClosed) || success then None else old(cap)
      ensures !old(isClosed) && !success ==> cap.None?
    {
      StepKeepsInv(View(), ReadFrame(t, success));
      ghost var after := Next(View(), ReadFrame(t, success));
      failed := None;
      if !isClosed && cap.Some? && !success {
        failed := cap;
        cap := None;
      }
      threads, candidates := after.threads, after.candidates;
    }

    // The lock section of close.
    method CloseOnce(t: Tid) returns (capture: Option<CandId>)
      requires Valid() && t !in threads
      modifies this
      ensures Valid() && View() == Next(old(View()), Step.Close(t))
      ensures isClosed && cap.None? && capture == if old(isClosed) then None else old(cap)
      ensures connectGeneration == old(connectGeneration) + if old(isClosed) then 0 else 1
    {
      StepKeepsInv(View(), Step.Close(t));
      ghost var after := Next(View(), Step.Close(t));
      capture := None;
      if !isClosed {
        isClosed := true;
        connectGeneration := connectGeneration + 1;
        capture := cap;
        cap := None;
      }
      threads, candidates := after.threads, after.candidates;
    }
  }
}
