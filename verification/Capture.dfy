/**
 The reconnecting capture: any number of threads in `read` and `close`.  A step
 is one section under the state lock or one call into the foreign capture.
 */
module Capture {
  import opened Prelude

  type Tid = nat
  type CandId = nat

  datatype Pc =
    | Top                                                // before the first lock section of read
    | Deciding                                           // before the second
    | Connecting(stale: Option<CandId>, generation: nat) // outside the lock: release stale, then connect
    | Installing(candidate: CandId, generation: nat, isOpen: bool)
    | Dropping(replaced: Option<CandId>, loser: Option<CandId>)
    | Reading                                            // before the third lock section
    | Releasing(failed: Option<CandId>)                  // after a failed read, or in close
    | Returned

  // Where a candidate is; a record of what the steps did with it.
  datatype Place = Installed | HeldBy(thread: Tid) | Gone
  datatype Candidate = Candidate(generation: nat, place: Place, releases: nat)

  datatype State = State(
    cap: Option<CandId>,             // _cap
    closed: bool,
    generation: nat,                 // _connect_generation
    threads: map<Tid, Pc>,
    candidates: map<CandId, Candidate>,
    installs: seq<nat>)              // generations installed, in order

  function Initial(): State { State(None, false, 0, map[], map[], []) }

  datatype Step =
    | Read(t: Tid)                                       // a new call of read
    | Close(t: Tid)                                      // a new call of close, up to its release
    | First(t: Tid)
    | Second(t: Tid, isOpen: bool)                       // isOpen: isOpened() of the installed capture
    | DropStale(t: Tid)
    | Connect(t: Tid, c: CandId, isOpen: bool)
    | ConnectRaises(t: Tid)                              // the factory raised
    | Install(t: Tid)
    | DropReplaced(t: Tid)
    | DropLoser(t: Tid)
    | ReadFrame(t: Tid, success: bool)
    | ReadRaises(t: Tid)
    | Release(t: Tid)

  predicate In(s: State, t: Tid) { t in s.threads }

  predicate Enabled(s: State, step: Step) {
    match step
    case Read(t) => !In(s, t)
    case Close(t) => !In(s, t)
    case First(t) => In(s, t) && s.threads[t].Top?
    case Second(t, _) => In(s, t) && s.threads[t].Deciding?
    case DropStale(t) => In(s, t) && s.threads[t].Connecting? && s.threads[t].stale.Some?
    case Connect(t, c, _) => In(s, t) && s.threads[t].Connecting? && s.threads[t].stale.None? && c !in s.candidates
    case ConnectRaises(t) => In(s, t) && s.threads[t].Connecting? && s.threads[t].stale.None?
    case Install(t) => In(s, t) && s.threads[t].Installing?
    case DropReplaced(t) => In(s, t) && s.threads[t].Dropping? && s.threads[t].replaced.Some?
    case DropLoser(t) => In(s, t) && s.threads[t].Dropping? && s.threads[t].replaced.None?
    case ReadFrame(t, _) => In(s, t) && s.threads[t].Reading?
    case ReadRaises(t) => In(s, t) && s.threads[t].Reading?
    case Release(t) => In(s, t) && s.threads[t].Releasing?
  }

  function Go(s: State, t: Tid, pc: Pc): State { s.(threads := s.threads[t := pc]) }

  function Put(s: State, c: Option<CandId>, place: Place): State {
    if c.Some? && c.value in s.candidates then
      s.(candidates := s.candidates[c.value := s.candidates[c.value].(place := place)])
    else s
  }

  // candidate.release()
  function Released(s: State, c: Option<CandId>): State {
    if c.Some? && c.value in s.candidates then
      var k := s.candidates[c.value];
      s.(candidates := s.candidates[c.value := Candidate(k.generation, Gone, k.releases + 1)])
    else s
  }

  function CloseStep(s: State, t: Tid): State {
    if s.closed then Go(s, t, Returned)
    else Go(Put(s, s.cap, HeldBy(t)), t, Releasing(s.cap)).(closed := true, generation := s.generation + 1, cap := None)
  }

  function SecondStep(s: State, t: Tid, isOpen: bool): State {
    if s.closed then Go(s, t, Returned)
    else if s.cap.Some? && isOpen then Go(s, t, Reading)
    else
      Go(Put(s, s.cap, HeldBy(t)), t, Connecting(s.cap, s.generation + 1)).(generation := s.generation + 1, cap := None)
  }

  function InstallStep(s: State, t: Tid): State
    requires In(s, t) && s.threads[t].Installing?
  {
    var pc := s.threads[t];
    var c := Some(pc.candidate);
    if pc.isOpen && !s.closed && pc.generation == s.generation then
      Go(Put(Put(s, s.cap, HeldBy(t)), c, Installed), t, Dropping(s.cap, None)).(
        cap := c, installs := s.installs + [pc.generation])
    else Go(s, t, Dropping(None, c))
  }

  function ReadFrameStep(s: State, t: Tid, success: bool): State {
    if s.closed || s.cap.None? || success then Go(s, t, Returned)
    else Go(Put(s, s.cap, HeldBy(t)), t, Releasing(s.cap)).(cap := None)
  }

  function Next(s: State, step: Step): State
    requires Enabled(s, step)
  {
    match step
    case Read(t) => Go(s, t, Top)
    case Close(t) => CloseStep(s, t)
    case First(t) => Go(s, t, if s.closed then Returned else Deciding)
    case Second(t, isOpen) => SecondStep(s, t, isOpen)
    case DropStale(t) => Go(Released(s, s.threads[t].stale), t, Connecting(None, s.threads[t].generation))
    case Connect(t, c, isOpen) =>
      var g := s.threads[t].generation;
      Go(s, t, Installing(c, g, isOpen)).(candidates := s.candidates[c := Candidate(g, HeldBy(t), 0)])
    case ConnectRaises(t) => Go(s, t, Returned)
    case Install(t) => InstallStep(s, t)
    case DropReplaced(t) => Go(Released(s, s.threads[t].replaced), t, Dropping(None, s.threads[t].loser))
    case DropLoser(t) =>
      Go(Released(s, s.threads[t].loser), t, if s.threads[t].loser.Some? then Returned else Reading)
    case ReadFrame(t, success) => ReadFrameStep(s, t, success)
    case ReadRaises(t) => Go(s, t, Returned)
    case Release(t) => Go(Released(s, s.threads[t].failed), t, Returned)
  }

  // ---------------------------------------------------------------------- invariant

  // The candidates a thread has in its own variables and must still release or install.
  function Owned(pc: Pc): set<CandId> {
    match pc
    case Connecting(stale, _) => OptionSet(stale)
    case Installing(c, _, _) => {c}
    case Dropping(replaced, loser) => OptionSet(replaced) + OptionSet(loser)
    case Releasing(failed) => OptionSet(failed)
    case _ => {}
  }

  function OptionSet(c: Option<CandId>): set<CandId> { if c.Some? then {c.value} else {} }

  predicate Attempts(pc: Pc) { pc.Connecting? || pc.Installing? }

  predicate ThreadOk(s: State, t: Tid) {
    t in s.threads &&
    var pc := s.threads[t];
    && (forall c :: c in Owned(pc) ==> c in s.candidates && s.candidates[c].place == HeldBy(t))
    && (Attempts(pc) ==> 0 < pc.generation <= s.generation && pc.generation !in s.installs)
    && (Attempts(pc) && s.cap.Some? ==> pc.generation < s.generation)
    && (pc.Dropping? ==> pc.replaced.None?)
  }

  predicate CandidateOk(s: State, c: CandId) {
    c in s.candidates &&
    var k := s.candidates[c];
    && (k.place.Installed? <==> s.cap == Some(c))
    && (k.place.HeldBy? ==> k.place.thread in s.threads && c in Owned(s.threads[k.place.thread]))
    && k.releases == (if k.place.Gone? then 1 else 0)
  }

  predicate Increasing(a: seq<nat>) { forall i, j :: 0 <= i < j < |a| ==> a[i] < a[j] }

  predicate AttemptsDiffer(s: State, t: Tid, u: Tid) {
    t in s.threads && u in s.threads && t != u && Attempts(s.threads[t]) && Attempts(s.threads[u]) ==>
      s.threads[t].generation != s.threads[u].generation
  }

  ghost predicate GenerationsOk(s: State) {
    && (forall t, u {:trigger AttemptsDiffer(s, t, u)} :: AttemptsDiffer(s, t, u))
    && Increasing(s.installs)
    && (forall g :: g in s.installs ==> g <= s.generation)
    && (s.closed ==> s.cap.None?)
    && (s.cap.Some? ==> s.cap.value in s.candidates)
  }

  ghost predicate Inv(s: State) {
    && (forall t {:trigger ThreadOk(s, t)} :: t in s.threads ==> ThreadOk(s, t))
    && (forall c {:trigger CandidateOk(s, c)} :: c in s.candidates ==> CandidateOk(s, c))
    && GenerationsOk(s)
  }

  lemma StepKeepsThreads(s: State, step: Step, u: Tid)
    requires Inv(s) && Enabled(s, step) && u in Next(s, step).threads
    ensures ThreadOk(Next(s, step), u)
  {
    if u in s.threads { assert ThreadOk(s, u); }
    if s.cap.Some? { assert CandidateOk(s, s.cap.value); }
    assert forall g :: g in s.installs ==> g <= s.generation;
    hide GenerationsOk, ThreadOk, CandidateOk;
    if u != step.t { StepKeepsOthers(s, step, u); }
    else if TouchesCap(step) { CapStepKeepsOwn(s, step); }
    else { PlainStepKeepsOwn(s, step); }
  }

  // The steps that touch the installed capture.
  predicate TouchesCap(step: Step) { step.Close? || step.Second? || step.Install? || step.ReadFrame? }

  lemma CapStepKeepsOwn(s: State, step: Step)
    requires Enabled(s, step) && TouchesCap(step) && (step.t in s.threads ==> ThreadOk(s, step.t))
    requires s.cap.Some? ==> CandidateOk(s, s.cap.value)
    requires s.cap.Some? ==> s.cap.value in s.candidates
    requires forall g :: g in s.installs ==> g <= s.generation
    ensures ThreadOk(Next(s, step), step.t)
  {
  }

  lemma PlainStepKeepsOwn(s: State, step: Step)
    requires Enabled(s, step) && !TouchesCap(step) && (step.t in s.threads ==> ThreadOk(s, step.t))
    ensures ThreadOk(Next(s, step), step.t)
  {
  }

  lemma StepKeepsOthers(s: State, step: Step, u: Tid)
    requires Inv(s) && Enabled(s, step) && u in s.threads && u != step.t
    ensures ThreadOk(Next(s, step), u)
  {
    if step.t in s.threads { assert ThreadOk(s, step.t); }
    assert ThreadOk(s, u) && AttemptsDiffer(s, step.t, u);
    if s.cap.Some? { assert CandidateOk(s, s.cap.value); }
    hide Inv, GenerationsOk, CandidateOk;
    if TouchesCap(step) {
      CapStepSpares(s, step, u);
    } else {
      OwnStepSpares(s, step, u);
    }
    hide Next;
    SparedIsOk(s, Next(s, step), u);
  }

  // Thread u and what it holds are as before, and no generation of its own was installed.
  predicate Spares(s: State, s': State, u: Tid) {
    u in s.threads && u in s'.threads && s'.threads[u] == s.threads[u] &&
    var pc := s.threads[u];
    && (forall c :: c in Owned(pc) && c in s.candidates ==>
          c in s'.candidates && s'.candidates[c].place == s.candidates[c].place)
    && s.generation <= s'.generation
    && (Attempts(pc) && pc.generation !in s.installs ==> pc.generation !in s'.installs)
    && (Attempts(pc) && s'.cap.Some? ==> s'.cap == s.cap || pc.generation < s'.generation)
  }

  lemma SparedIsOk(s: State, s': State, u: Tid)
    requires ThreadOk(s, u) && Spares(s, s', u)
    ensures ThreadOk(s', u)
  {
  }

  lemma CapStepSpares(s: State, step: Step, u: Tid)
    requires Enabled(s, step) && TouchesCap(step)
    requires ThreadOk(s, u) && u != step.t && AttemptsDiffer(s, step.t, u)
    requires step.t in s.threads ==> ThreadOk(s, step.t)
    requires s.cap.Some? ==> CandidateOk(s, s.cap.value)
    ensures Spares(s, Next(s, step), u)
  {
  }

  lemma OwnStepSpares(s: State, step: Step, u: Tid)
    requires Enabled(s, step) && !TouchesCap(step)
    requires ThreadOk(s, u) && u != step.t && (step.t in s.threads ==> ThreadOk(s, step.t))
    ensures Spares(s, Next(s, step), u)
  {
  }

  lemma InstallIncreases(s: State, t: Tid)
    requires GenerationsOk(s) && ThreadOk(s, t) && s.threads[t].Installing? && s.threads[t].generation == s.generation
    ensures Increasing(s.installs + [s.generation])
  {
    forall i | 0 <= i < |s.installs| ensures s.installs[i] < s.generation { assert s.installs[i] in s.installs; }
  }

  lemma StepKeepsCandidates(s: State, step: Step, c: CandId)
    requires Inv(s) && Enabled(s, step) && c in Next(s, step).candidates
    ensures CandidateOk(Next(s, step), c)
  {
    if step.t in s.threads { assert ThreadOk(s, step.t); }
    if s.cap.Some? { assert CandidateOk(s, s.cap.value); }
    if c in s.candidates { assert CandidateOk(s, c); }
    hide Inv, GenerationsOk, ThreadOk, CandidateOk;
    if TouchesCap(step) { CapStepKeepsCandidate(s, step, c); } else { PlainStepKeepsCandidate(s, step, c); }
  }

  lemma CapStepKeepsCandidate(s: State, step: Step, c: CandId)
    requires Enabled(s, step) && TouchesCap(step) && c in s.candidates && CandidateOk(s, c)
    requires step.t in s.threads ==> ThreadOk(s, step.t)
    requires s.cap.Some? ==> CandidateOk(s, s.cap.value)
    ensures CandidateOk(Next(s, step), c)
  {
  }

  lemma PlainStepKeepsCandidate(s: State, step: Step, c: CandId)
    requires Enabled(s, step) && !TouchesCap(step) && c in Next(s, step).candidates
    requires c in s.candidates ==> CandidateOk(s, c)
    requires step.t in s.threads ==> ThreadOk(s, step.t)
    requires s.cap.Some? ==> CandidateOk(s, s.cap.value)
    ensures CandidateOk(Next(s, step), c)
  {
  }

  lemma StepKeepsGenerations(s: State, step: Step)
    requires Inv(s) && Enabled(s, step)
    ensures GenerationsOk(Next(s, step))
  {
    if step.t in s.threads { assert ThreadOk(s, step.t); }
    var s' := Next(s, step);
    forall t, u ensures AttemptsDiffer(s', t, u) { StepKeepsAttempts(s, step, t, u); }
    if step.Install? && s.threads[step.t].generation == s.generation { InstallIncreases(s, step.t); }
    hide Increasing, AttemptsDiffer;
  }

  lemma StepKeepsAttempts(s: State, step: Step, t: Tid, u: Tid)
    requires Inv(s) && Enabled(s, step)
    ensures AttemptsDiffer(Next(s, step), t, u)
  {
    assert AttemptsDiffer(s, t, u);
    if t in s.threads { assert ThreadOk(s, t); }
    if u in s.threads { assert ThreadOk(s, u); }
    hide GenerationsOk, Put, Released, Owned;
  }

  lemma StepKeepsInv(s: State, step: Step)
    requires Inv(s) && Enabled(s, step)
    ensures Inv(Next(s, step))
  {
    var s' := Next(s, step);
    hide Next, GenerationsOk;
    forall t | t in s'.threads ensures ThreadOk(s', t) { StepKeepsThreads(s, step, t); }
    forall c | c in s'.candidates ensures CandidateOk(s', c) { StepKeepsCandidates(s, step, c); }
    StepKeepsGenerations(s, step);
  }

  // ---------------------------------------------------------------------- whole runs

  predicate Runnable(s: State, steps: seq<Step>)
    decreases |steps|
  {
    steps == [] || (Enabled(s, steps[0]) && Runnable(Next(s, steps[0]), steps[1..]))
  }

  function Exec(s: State, steps: seq<Step>): State
    requires Runnable(s, steps)
    decreases |steps|
  {
    if steps == [] then s else Exec(Next(s, steps[0]), steps[1..])
  }

  lemma {:induction false} RunKeepsInv(s: State, steps: seq<Step>)
    requires Inv(s) && Runnable(s, steps)
    ensures Inv(Exec(s, steps))
    decreases |steps|
  {
    if steps != [] {
      StepKeepsInv(s, steps[0]);
      hide Inv, Next;
      RunKeepsInv(Next(s, steps[0]), steps[1..]);
    }
  }

  // In exactly one place: installed, in one thread's hands, or released; and released at most once.
  predicate OnePlace(s: State, c: CandId) {
    c in s.candidates &&
    var installed := s.cap == Some(c);
    var released := s.candidates[c].releases == 1;
    && s.candidates[c].releases <= 1
    && !(installed && released)
    && (forall t :: t in s.threads && c in Owned(s.threads[t]) ==> !installed && !released)
    && (forall t, u :: t in s.threads && u in s.threads && c in Owned(s.threads[t]) && c in Owned(s.threads[u]) ==>
          t == u)
    && (installed || released || exists t :: t in s.threads && c in Owned(s.threads[t]))
  }

  lemma PlacesAreExclusive(s: State, c: CandId)
    requires Inv(s) && c in s.candidates
    ensures OnePlace(s, c)
  {
    assert CandidateOk(s, c);
    forall t | t in s.threads && c in Owned(s.threads[t]) ensures s.candidates[c].place == HeldBy(t) {
      assert ThreadOk(s, t);
    }
  }

  /** For any number of concurrent readers and closers every candidate is at all
      times in exactly one place and is never released twice; once every thread
      has returned, whatever is not installed was released exactly once. */
  lemma EveryCandidateHasOnePlace(steps: seq<Step>)
    requires Runnable(Initial(), steps)
    ensures var s := Exec(Initial(), steps); forall c :: c in s.candidates ==> OnePlace(s, c)
  {
    RunKeepsInv(Initial(), steps);
    var s := Exec(Initial(), steps);
    hide Runnable, Exec;
    forall c | c in s.candidates ensures OnePlace(s, c) { PlacesAreExclusive(s, c); }
  }

  /** A stale generation never replaces a newer capture: generations are installed
      in strictly increasing order, and an installation finds nothing to replace. */
  lemma InstallsNeverReplace(steps: seq<Step>, t: Tid)
    requires Runnable(Initial(), steps) && Enabled(Exec(Initial(), steps), Install(t))
    ensures var s := Exec(Initial(), steps);
      && Increasing(s.installs)
      && (InstallStep(s, t).installs != s.installs ==>
            s.cap.None? && forall g :: g in s.installs ==> g < s.threads[t].generation)
  {
    RunKeepsInv(Initial(), steps);
    var s := Exec(Initial(), steps);
    hide Runnable, Exec;
    assert ThreadOk(s, t);
  }

  /** Only the thread that installed its candidate goes on to read; one whose candidate was too late,
      or not open, releases it and returns. */
  lemma LoserReturns(s: State, t: Tid)
    requires Inv(s) && Enabled(s, Install(t))
    ensures var c, s' := s.threads[t].candidate, Next(s, Install(t));
      && Enabled(s', DropLoser(t))
      && Next(s', DropLoser(t)).threads[t] == (if s'.cap == Some(c) then Reading else Returned)
      && (s'.cap != Some(c) ==>
            var after := Next(s', DropLoser(t)); c in after.candidates && after.candidates[c].releases == 1)
      && (s'.cap == Some(c) <==> s.threads[t].isOpen && !s.closed && s.threads[t].generation == s.generation)
  {
    assert ThreadOk(s, t);
    assert CandidateOk(s, s.threads[t].candidate);
    hide Inv;
  }

  lemma ClosedStep(s: State, step: Step)
    requires Inv(s) && s.closed && Enabled(s, step)
    ensures Next(s, step).closed && Next(s, step).cap.None? && Next(s, step).installs == s.installs
  {
    hide OnePlace, CandidateOk, ThreadOk;
  }

  /** After close nothing is ever installed again; when all threads have returned,
      every candidate ever made was released exactly once. */
  lemma {:induction false} NothingInstalledAfterClose(s: State, steps: seq<Step>)
    requires Inv(s) && s.closed && Runnable(s, steps)
    ensures var s' := Exec(s, steps);
      && s'.cap.None? && s'.installs == s.installs
      && ((forall t :: t in s'.threads ==> s'.threads[t].Returned?) ==>
          forall c :: c in s'.candidates ==> s'.candidates[c].releases == 1)
    decreases |steps|
  {
    if steps == [] {
      forall c | c in s.candidates ensures CandidateOk(s, c) { }
    } else {
      ClosedStep(s, steps[0]);
      StepKeepsInv(s, steps[0]);
      hide Next;
      NothingInstalledAfterClose(Next(s, steps[0]), steps[1..]);
    }
    hide Inv;
  }
}
