/** What every step of a camera worker keeps, and what holds of every run. */
module WorkerInvariant {
  import opened Worker

  // ---------------------------------------------------------------------- lifecycle

  predicate ValidPath(h: seq<Name>) {
    |h| > 0 && h[0] == Stopped && forall i :: 0 < i < |h| ==> MayGo(h[i - 1], h[i])
  }

  // Everything requested so far was allowed.
  predicate LifeOk(l: Life) {
    l.invalid == 0 && ValidPath(l.history) && l.history[|l.history| - 1] == l.name
  }

  // The try block is over.
  predicate Closing(pc: Pc) {
    || pc.Gathering? || pc.ClosingPipeline? || pc.Settling? || pc.Joining?
    || pc.PuttingMark? || pc.AwaitingDispatcher? || pc.Finishing?
  }

  predicate PastGather(pc: Pc) { (Closing(pc) && !pc.Gathering?) || pc.Ended? }

  predicate NameOk(s: State) {
    match s.pc
    case NotStarted => s.life.name == Stopped && !s.stop
    case BuildingCapture => s.life.name == if s.stop then Stopping else Starting
    case BuildingPipeline => s.life.name == if s.stop then Stopping else Starting
    case Supervising => s.life.name == if s.stop then Stopping else if s.reconnecting then Reconnecting else Running
    case Ended => s.stop && (s.life.name == Stopped || s.life.name == Failed)
    case _ => s.stop && s.life.name != Stopped && s.life.name != Failed && (!s.pc.error ==> s.life.name == Stopping)
  }

  predicate LoopsOk(s: State) {
    && (s.pc.NotStarted? || s.pc.BuildingCapture? || s.pc.BuildingPipeline? ==>
          s.loop.NoLoop? && s.analytics.NoAnalytics?)
    && (s.loop.NoLoop? ==> !s.reconnecting && !s.pc.Supervising?)
    && (PastGather(s.pc) ==> LoopsEnded(s))
  }

  predicate LifecycleOk(s: State) { NameOk(s) && LoopsOk(s) && LifeOk(s.life) }

  // ---------------------------------------------------------------------- resources

  predicate ClosedAtMostOnce(r: Resource) {
    r.closes == (if r.closed then 1 else 0) && (r.closed ==> r.built)
  }

  predicate ClosedIffBuilt(r: Resource) { ClosedAtMostOnce(r) && (r.built ==> r.closed) }

  predicate ResourcesOk(s: State) {
    && ClosedAtMostOnce(s.capture) && ClosedAtMostOnce(s.pipeline)
    && (s.pc.NotStarted? || s.pc.BuildingCapture? ==> !s.capture.built)
    && (s.pc.NotStarted? || s.pc.BuildingCapture? || s.pc.BuildingPipeline? ==> !s.pipeline.built)
    && (Closing(s.pc) || s.pc.Ended? ==> ClosedIffBuilt(s.capture))
    && (PastGather(s.pc) ==> ClosedIffBuilt(s.pipeline))
  }

  // ------------------------------------------------------------------------- events

  // items are the events still waiting, then the stop mark if it was put.
  predicate Holds(items: seq<Item>, events: seq<Event>, marked: bool) {
    && |items| == |events| + (if marked then 1 else 0)
    && (forall i :: 0 <= i < |events| ==> items[i] == Routed(events[i]))
    && (marked ==> items[|events|] == StopMark)
  }

  predicate QueueOk(e: Events, marked: bool) {
    && e.delivered <= e.accepted
    && Holds(e.items, e.accepted[|e.delivered|..], marked)
    && e.unfinished == |e.items| + (if e.dispatcher.Emitting? then 1 else 0)
  }

  predicate CountsOk(e: Events) {
    && e.counts.callbacks == |e.accepted| + e.counts.dropped + e.counts.rejected
    && |e.delivered| == e.counts.emitted + e.counts.sinkFailures + (if e.dispatcher.Emitting? then 1 else 0)
  }

  predicate Marked(s: State) { s.pc.AwaitingDispatcher? && !s.ev.dispatcher.Dispatched? }

  predicate AllDelivered(e: Events) { e.delivered == e.accepted && !e.dispatcher.Emitting? }

  predicate DispatchOk(s: State) {
    && (s.accepting ==> s.pc.Supervising? && !s.stop)
    && (s.ev.dispatcher.NoDispatcher? <==> s.loop.NoLoop?)
    && (s.ev.dispatcher.NoDispatcher? ==> s.ev.accepted == [])
    && (s.ev.dispatcher.Dispatched? ==> s.pc.AwaitingDispatcher? || s.pc.Finishing? || s.pc.Ended?)
    && (s.pc.Joining? || s.pc.PuttingMark? ==> !s.ev.dispatcher.NoDispatcher?)
    && (s.pc.PuttingMark? || s.pc.AwaitingDispatcher? || s.pc.Finishing? || s.pc.Ended? ==> AllDelivered(s.ev))
    && (s.pc.Finishing? || s.pc.Ended? ==> !s.ev.dispatcher.Idle?)
  }

  predicate EventsOk(s: State) { QueueOk(s.ev, Marked(s)) && DispatchOk(s) && CountsOk(s.ev) }

  predicate Inv(s: State) { LifecycleOk(s) && ResourcesOk(s) && EventsOk(s) }

  // -------------------------------------------------------------------------- steps

  // A request allowed from the present state is recorded and never refused.
  lemma RequestKeepsLife(l: Life, to: Name)
    requires LifeOk(l) && (to == l.name || MayGo(l.name, to))
    ensures LifeOk(Request(l, to)) && Request(l, to).name == to
  {
  }

  lemma LifecycleKept(s: State, step: Step)
    requires LifecycleOk(s) && Enabled(s, step)
    ensures LifecycleOk(Next(s, step))
  {
    hide LifeOk, Request, CloseOnce, CallbackStep, TakeStep, SinkReturnsStep;
    hide StartStep, StopStep, CaptureBuiltStep, PipelineBuiltStep, CaptureReadStep, FinishStep;
    match step {
      case Start => StartKeepsLifecycle(s);
      case CallStop => StopKeepsLifecycle(s);
      case CaptureBuilt(ok) => CaptureKeepsLifecycle(s, ok);
      case PipelineBuilt(ok) => PipelineKeepsLifecycle(s, ok);
      case CaptureRead(success) => ReadKeepsLifecycle(s, success);
      case Finish => FinishKeepsLifecycle(s);
      case _ =>
    }
  }

  lemma StartKeepsLifecycle(s: State)
    requires LifecycleOk(s)
    ensures LifecycleOk(StartStep(s))
  {
    hide LifeOk, Request;
    if s.pc.NotStarted? { RequestKeepsLife(s.life, Starting); }
  }

  lemma StopKeepsLifecycle(s: State)
    requires LifecycleOk(s)
    ensures LifecycleOk(StopStep(s))
  {
    hide LifeOk, Request, CloseOnce;
    if !s.pc.NotStarted? && !s.pc.Ended? { RequestKeepsLife(s.life, Stopping); }
  }

  lemma CaptureKeepsLifecycle(s: State, ok: bool)
    requires LifecycleOk(s) && s.pc.BuildingCapture?
    ensures LifecycleOk(CaptureBuiltStep(s, ok))
  {
    hide LifeOk, CloseOnce;
  }

  lemma PipelineKeepsLifecycle(s: State, ok: bool)
    requires LifecycleOk(s) && s.pc.BuildingPipeline?
    ensures LifecycleOk(PipelineBuiltStep(s, ok))
  {
    hide LifeOk, Request, CloseOnce;
    if !s.stop { RequestKeepsLife(s.life, Running); }
  }

  lemma ReadKeepsLifecycle(s: State, success: bool)
    requires LifecycleOk(s) && s.loop.Reading?
    ensures LifecycleOk(CaptureReadStep(s, success))
  {
    hide LifeOk, Request;
    if !s.stop && s.pc.Supervising? { RequestKeepsLife(s.life, if success then Running else Reconnecting); }
  }

  lemma FinishKeepsLifecycle(s: State)
    requires LifecycleOk(s) && s.pc.Finishing?
    ensures LifecycleOk(FinishStep(s))
  {
    hide LifeOk, Request;
    if s.pc.error {
      RequestKeepsLife(s.life, Failed);
    } else {
      RequestKeepsLife(s.life, Stopping);
      RequestKeepsLife(Request(s.life, Stopping), Stopped);
    }
  }

  lemma ResourcesKept(s: State, step: Step)
    requires ResourcesOk(s) && Enabled(s, step)
    ensures ResourcesOk(Next(s, step))
  {
    hide Request, CallbackStep, TakeStep, SinkReturnsStep;
  }

  lemma CallbackKeepsQueue(e: Events, event: Event, open: bool, valid: bool)
    requires QueueOk(e, false) && CountsOk(e)
    ensures QueueOk(CallbackStep(e, open, event, valid), false) && CountsOk(CallbackStep(e, open, event, valid))
  {
    var e' := CallbackStep(e, open, event, valid);
    if e' != e.(counts := e'.counts) {
      assert e'.accepted[|e.delivered|..] == e.accepted[|e.delivered|..] + [event];
    }
  }

  lemma TakeKeepsQueue(e: Events, marked: bool)
    requires QueueOk(e, marked) && CountsOk(e) && e.dispatcher.Idle? && |e.items| > 0
    ensures QueueOk(TakeStep(e), marked && e.items[0].Routed?) && CountsOk(TakeStep(e))
    ensures e.items[0].Routed? <==> |e.delivered| < |e.accepted|
  {
    var waiting := e.accepted[|e.delivered|..];
    if |waiting| > 0 {
      assert e.accepted[|e.delivered|] == waiting[0];
      assert TakeStep(e).accepted[|TakeStep(e).delivered|..] == waiting[1..];
    }
  }

  lemma EventsKept(s: State, step: Step)
    requires EventsOk(s) && LoopsOk(s) && Enabled(s, step)
    ensures EventsOk(Next(s, step))
  {
    hide Request, CloseOnce, Holds;
    match step {
      case Callback(event, valid) => CallbackKeepsEvents(s, step);
      case Take => TakeKeepsEvents(s);
      case Settle => SettlingKeepsEvents(s, step);
      case Joined => SettlingKeepsEvents(s, step);
      case PutMark => SettlingKeepsEvents(s, step);
      case _ =>
    }
  }

  // An empty queue means everything accepted was delivered.
  lemma EmptyMeansDelivered(e: Events)
    requires QueueOk(e, false) && e.items == []
    ensures e.delivered == e.accepted
    ensures QueueOk(e.(items := [StopMark], unfinished := e.unfinished + 1), true)
  {
    assert e.accepted[|e.delivered|..] == [];
  }

  lemma SettlingKeepsEvents(s: State, step: Step)
    requires EventsOk(s) && LoopsOk(s) && Enabled(s, step) && (step.Settle? || step.Joined? || step.PutMark?)
    ensures EventsOk(Next(s, step))
  {
    if s.ev.items == [] && !Marked(s) { EmptyMeansDelivered(s.ev); }
    if s.pc.PuttingMark? { DeliveredMeansEmpty(s.ev); }
    hide Holds;
  }

  lemma DeliveredMeansEmpty(e: Events)
    requires QueueOk(e, false) && e.delivered == e.accepted
    ensures e.items == []
  {
    EmptyOnceDelivered(e.items, e.accepted[|e.delivered|..]);
  }

  lemma EmptyOnceDelivered(items: seq<Item>, waiting: seq<Event>)
    requires Holds(items, waiting, false) && waiting == []
    ensures items == []
  {
  }

  // An event at the head of the queue is the oldest not yet delivered.
  predicate OldestFirst(e: Events) {
    |e.items| > 0 && e.items[0].Routed? ==>
      |e.delivered| < |e.accepted| && e.items[0].event == e.accepted[|e.delivered|]
  }

  lemma HeadIsOldest(e: Events, marked: bool)
    requires QueueOk(e, marked)
    ensures OldestFirst(e)
  {
    if |e.items| > 0 && e.items[0].Routed? {
      assert |e.accepted[|e.delivered|..]| > 0;
      assert e.items[0] == Routed(e.accepted[|e.delivered|..][0]);
    }
  }

  lemma CallbackKeepsEvents(s: State, step: Step)
    requires EventsOk(s) && LoopsOk(s) && Enabled(s, step) && step.Callback?
    ensures EventsOk(Next(s, step))
  {
    if s.accepting && !s.stop {
      CallbackKeepsQueue(s.ev, step.event, true, step.valid);
    } else {
      ClosedCallbackKeepsQueue(s.ev, Marked(s), step.event, step.valid);
    }
    CallbackMoves(s.ev, s.accepting && !s.stop, step.event, step.valid);
    hide QueueOk, CountsOk, CallbackStep, LoopsOk;
  }

  lemma ClosedCallbackKeepsQueue(e: Events, marked: bool, event: Event, valid: bool)
    requires QueueOk(e, marked) && CountsOk(e)
    ensures QueueOk(CallbackStep(e, false, event, valid), marked) && CountsOk(CallbackStep(e, false, event, valid))
  {
  }

  lemma CallbackMoves(e: Events, open: bool, event: Event, valid: bool)
    ensures var e' := CallbackStep(e, open, event, valid);
      e'.dispatcher == e.dispatcher && e'.delivered == e.delivered && (!open ==> e'.accepted == e.accepted)
  {
  }

  lemma TakeKeepsEvents(s: State)
    requires EventsOk(s) && Enabled(s, Take)
    ensures EventsOk(Next(s, Take))
  {
    TakeKeepsQueue(s.ev, Marked(s));
  }

  lemma StepKeepsInv(s: State, step: Step)
    requires Inv(s) && Enabled(s, step)
    ensures Inv(Next(s, step))
  {
    assert LoopsOk(s);
    hide LifecycleOk, LoopsOk, ResourcesOk, EventsOk, Next;
    LifecycleKept(s, step);
    ResourcesKept(s, step);
    EventsKept(s, step);
  }

  // ---------------------------------------------------------------------- whole runs

  predicate Runnable(s: State, steps: seq<Step>)
    decreases |steps|
  {
    steps == [] || (Enabled(s, steps[0]) && Runnable(Next(s, steps[0]), steps[1..]))
  }

  function Exec(s: State, steps: seq<Step>): State
    requires Runnable(s, steps)
    decreases |steps|
  {
    if steps == [] then s else Exec(Next(s, steps[0]), steps[1..])
  }

  lemma {:induction false} RunKeepsInv(s: State, steps: seq<Step>)
    requires Inv(s) && Runnable(s, steps)
    ensures Inv(Exec(s, steps))
    decreases |steps|
  {
    if steps != [] {
      StepKeepsInv(s, steps[0]);
      hide Inv, Next;
      RunKeepsInv(Next(s, steps[0]), steps[1..]);
    }
  }

  lemma InitialInv(capacity: nat)
    ensures Inv(Initial(capacity))
  {
  }

  /** No interleaving of callers, supervisor and loops ever requests a transition
      outside the table, and the states entered form a path of it. */
  lemma TransitionsAreValid(capacity: nat, steps: seq<Step>)
    requires Runnable(Initial(capacity), steps)
    ensures var s := Exec(Initial(capacity), steps);
      s.life.invalid == 0 && ValidPath(s.life.history) && s.life.history[|s.life.history| - 1] == s.life.name
  {
    InitialInv(capacity);
    RunKeepsInv(Initial(capacity), steps);
    hide Runnable, Exec;
  }

  /** Capture and pipeline are never closed twice; when a started worker is in
      STOPPED or FAILED its supervisor has ended, both loops are over and each
      resource that was built was closed exactly once. */
  lemma ClosedOnceBeforeTerminal(capacity: nat, steps: seq<Step>)
    requires Runnable(Initial(capacity), steps)
    ensures var s := Exec(Initial(capacity), steps);
      && s.capture.closes <= 1 && s.pipeline.closes <= 1
      && (!s.pc.NotStarted? && (s.life.name == Stopped || s.life.name == Failed) ==>
          s.pc.Ended? && LoopsEnded(s)
          && s.capture.closes == (if s.capture.built then 1 else 0)
          && s.pipeline.closes == (if s.pipeline.built then 1 else 0))
  {
    InitialInv(capacity);
    RunKeepsInv(Initial(capacity), steps);
    hide Runnable, Exec;
  }

  /** Conservation: at every moment the sink was called with a prefix of the
      accepted events in order and every callback was accepted, dropped or
      rejected; once the supervisor has ended nothing is outstanding. */
  lemma EventsAreConserved(capacity: nat, steps: seq<Step>)
    requires Runnable(Initial(capacity), steps)
    ensures var s := Exec(Initial(capacity), steps); var n := s.ev.counts;
      && s.ev.delivered <= s.ev.accepted
      && n.callbacks == |s.ev.accepted| + n.dropped + n.rejected
      && n.emitted + n.sinkFailures <= |s.ev.delivered|
      && (s.pc.Ended? ==>
            s.ev.delivered == s.ev.accepted && |s.ev.accepted| == n.emitted + n.sinkFailures && s.ev.items == [])
  {
    InitialInv(capacity);
    RunKeepsInv(Initial(capacity), steps);
    hide Runnable, Exec;
  }

  // ------------------------------------------------------------------- what is counted

  function Returns(steps: seq<Step>, ok: bool): nat {
    if steps == [] then 0 else (if steps[0] == SinkReturns(ok) then 1 else 0) + Returns(steps[1..], ok)
  }

  function Callbacks(steps: seq<Step>): nat {
    if steps == [] then 0 else (if steps[0].Callback? then 1 else 0) + Callbacks(steps[1..])
  }

  lemma StepCounted(s: State, step: Step)
    requires Enabled(s, step)
    ensures var n, n' := s.ev.counts, Next(s, step).ev.counts;
      && n'.emitted == n.emitted + (if step == SinkReturns(true) then 1 else 0)
      && n'.sinkFailures == n.sinkFailures + (if step == SinkReturns(false) then 1 else 0)
      && n'.callbacks == n.callbacks + (if step.Callback? then 1 else 0)
  {
    hide Request;
  }

  lemma {:induction false} StepsCounted(s: State, steps: seq<Step>)
    requires Runnable(s, steps)
    ensures var n, n' := s.ev.counts, Exec(s, steps).ev.counts;
      && n'.emitted == n.emitted + Returns(steps, true) && n'.sinkFailures == n.sinkFailures + Returns(steps, false)
      && n'.callbacks == n.callbacks + Callbacks(steps)
    decreases |steps|
  {
    if steps != [] {
      StepCounted(s, steps[0]);
      hide Next, Enabled;
      StepsCounted(Next(s, steps[0]), steps[1..]);
    }
  }

  /** In every run the counters say what happened: events_emitted is how often the sink accepted an
      event, sink failures how often it raised or timed out, and every callback is counted. */
  lemma CountersAreSteps(capacity: nat, steps: seq<Step>)
    requires Runnable(Initial(capacity), steps)
    ensures var n := Exec(Initial(capacity), steps).ev.counts;
      n.emitted == Returns(steps, true) && n.sinkFailures == Returns(steps, false) && n.callbacks == Callbacks(steps)
  {
    StepsCounted(Initial(capacity), steps);
    hide Runnable, Exec;
  }

  // ------------------------------------------------------------------- how a run ends

  // Foreign code failed: a factory, a loop or the pipeline's close.
  predicate Fails(step: Step) {
    || step == CaptureBuilt(false) || step == PipelineBuilt(false) || step == CaptureRaises
    || step == AnalyticsEnds(true) || step == PipelineClosed(false)
  }

  predicate AnyFails(steps: seq<Step>) { exists i :: 0 <= i < |steps| && Fails(steps[i]) }

  // The worker knows whether anything has failed so far.
  predicate FailureOk(s: State, failed: bool) {
    && (s.loop == LoopEnded(false) || s.analytics == AnalyticsEnded(false) ==> s.stop)
    && match s.pc
       case Ended => failed <==> s.life.name == Failed
       case Gathering(error) => failed <==> error || SomeRaised(s)
       case _ => failed <==> if Closing(s.pc) then s.pc.error else SomeRaised(s)
  }

  lemma StepKeepsFailure(s: State, step: Step, failed: bool)
    requires LifecycleOk(s) && Enabled(s, step) && FailureOk(s, failed)
    ensures FailureOk(Next(s, step), failed || Fails(step))
  {
    hide LifecycleOk, FailureOk, Fails, Next;
    if step.CaptureBuilt? || step.PipelineBuilt? {
      BuildingFails(s, step, failed);
    } else if step.CaptureRead? || step.CallStop? || step.Start? {
      CallsDoNotFail(s, step, failed);
    } else if step.Callback? || step.Take? || step.SinkReturns? {
      EventsDoNotFail(s, step, failed);
    } else if Closing(s.pc) && !step.CaptureRaises? && !step.AnalyticsEnds? && !step.LoopResumes? {
      ClosingFails(s, step, failed);
    } else {
      LoopsFail(s, step, failed);
    }
  }

  lemma EventsDoNotFail(s: State, step: Step, failed: bool)
    requires Enabled(s, step) && FailureOk(s, failed) && (step.Callback? || step.Take? || step.SinkReturns?)
    ensures FailureOk(Next(s, step), failed || Fails(step))
  {
    hide LifeOk, CallbackStep, TakeStep, SinkReturnsStep;
  }

  lemma ClosingFails(s: State, step: Step, failed: bool)
    requires LifecycleOk(s) && Enabled(s, step) && FailureOk(s, failed) && Closing(s.pc)
    requires step.Gathered? || step.PipelineClosed? || step.Settle? || step.Joined? || step.PutMark?
             || step.DispatcherJoined? || step.Finish?
    ensures FailureOk(Next(s, step), failed || Fails(step))
  {
    if step.Finish? { FinishNames(s); }
    hide LifeOk, Request, CloseOnce, FinishStep;
  }

  lemma LoopsFail(s: State, step: Step, failed: bool)
    requires LifecycleOk(s) && Enabled(s, step) && FailureOk(s, failed)
    requires step.LoopResumes? || step.CaptureRaises? || step.AnalyticsEnds? || step.SupervisorWakes?
    ensures FailureOk(Next(s, step), failed || Fails(step))
  {
    hide LifeOk, Request, CloseOnce;
  }

  lemma BuildingFails(s: State, step: Step, failed: bool)
    requires LifecycleOk(s) && Enabled(s, step) && FailureOk(s, failed) && (step.CaptureBuilt? || step.PipelineBuilt?)
    ensures FailureOk(Next(s, step), failed || Fails(step))
  {
    hide LifeOk, Request, CloseOnce;
  }

  lemma CallsDoNotFail(s: State, step: Step, failed: bool)
    requires LifecycleOk(s) && Enabled(s, step) && FailureOk(s, failed)
    requires step.CaptureRead? || step.CallStop? || step.Start?
    ensures FailureOk(Next(s, step), failed || Fails(step))
  {
    hide LifeOk, Request, CloseOnce;
  }

  lemma FinishNames(s: State)
    requires LifecycleOk(s) && s.pc.Finishing?
    ensures FinishStep(s) == s.(pc := Ended, life := FinishStep(s).life)
    ensures FinishStep(s).life.name == if s.pc.error then Failed else Stopped
  {
    hide LifeOk;
  }

  lemma {:induction false} RunKeepsFailure(s: State, steps: seq<Step>, failed: bool)
    requires Inv(s) && Runnable(s, steps) && FailureOk(s, failed)
    ensures FailureOk(Exec(s, steps), failed || AnyFails(steps))
    decreases |steps|
  {
    if steps != [] {
      StepKeepsInv(s, steps[0]);
      StepKeepsFailure(s, steps[0], failed);
      hide Inv, Next, FailureOk, Fails;
      RunKeepsFailure(Next(s, steps[0]), steps[1..], failed || Fails(steps[0]));
      assert forall i :: 0 <= i < |steps| - 1 ==> steps[1..][i] == steps[i + 1];
      if i :| 0 <= i < |steps| && Fails(steps[i]) { assert i > 0 ==> Fails(steps[1..][i - 1]); }
    }
  }

  /** A worker that ended is in FAILED if and only if a factory, a loop or the pipeline's close
      failed in its run, whatever was stopped when, and in STOPPED otherwise. */
  lemma EndsFailedIff(capacity: nat, steps: seq<Step>)
    requires Runnable(Initial(capacity), steps) && Exec(Initial(capacity), steps).pc.Ended?
    ensures var s := Exec(Initial(capacity), steps);
      (s.life.name == Failed <==> AnyFails(steps)) && (s.life.name == Stopped <==> !AnyFails(steps))
  {
    InitialInv(capacity);
    RunKeepsInv(Initial(capacity), steps);
    RunKeepsFailure(Initial(capacity), steps, false);
    hide Runnable, Exec, AnyFails;
  }

  // What an ended worker never changes again.
  predicate Settled(s: State, s': State) {
    && s'.pc.Ended? && s'.life == s.life && s'.capture == s.capture && s'.pipeline == s.pipeline
    && s'.ev.accepted == s.ev.accepted && s'.ev.delivered == s.ev.delivered
    && s'.ev.counts.emitted == s.ev.counts.emitted && s'.ev.counts.sinkFailures == s.ev.counts.sinkFailures
  }

  lemma EndedStepSettled(s: State, step: Step)
    requires Inv(s) && s.pc.Ended? && Enabled(s, step)
    ensures Settled(s, Next(s, step))
  {
    hide LifeOk, NameOk;
  }

  /** Nothing reaches the sink after the supervisor has ended, whatever callbacks
      and stops still arrive, and no state or resource changes. */
  lemma {:induction false} NothingAfterEnd(s: State, steps: seq<Step>)
    requires Inv(s) && s.pc.Ended? && Runnable(s, steps)
    ensures Settled(s, Exec(s, steps))
    decreases |steps|
  {
    if steps != [] {
      EndedStepSettled(s, steps[0]);
      StepKeepsInv(s, steps[0]);
      hide Inv, Next;
      NothingAfterEnd(Next(s, steps[0]), steps[1..]);
    }
  }
}
