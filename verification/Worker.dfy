/**
 One camera worker as a machine of atomic steps: the supervisor, callers of
 stop, the capture and analytics loops, the event dispatcher and the pipeline's
 callbacks.  A step is one stretch between two awaits; the scheduler and the
 foreign code (factories, capture, pipeline, sink) choose freely.
 */
module Worker {

  type Event = nat

  datatype Name = Stopped | Starting | Running | Reconnecting | Stopping | Failed

  // VALID_TRANSITIONS
  predicate MayGo(a: Name, b: Name) {
    match a
    case Stopped => b == Starting
    case Starting => b == Running || b == Reconnecting || b == Failed || b == Stopping
    case Running => b == Reconnecting || b == Stopping || b == Failed
    case Reconnecting => b == Running || b == Stopping || b == Failed
    case Stopping => b == Stopped || b == Failed
    case Failed => b == Stopping || b == Stopped
  }

  datatype Pc =
    | NotStarted
    | BuildingCapture
    | BuildingPipeline
    | Supervising                    // waiting for the first loop to end
    | Gathering(error: bool)         // finally: resources signalled, waiting for both loops
    | ClosingPipeline(error: bool)   // awaiting aclose
    | Settling(error: bool)          // before _settle_event_task
    | Joining(error: bool)           // awaiting the queue's join
    | PuttingMark(error: bool)
    | AwaitingDispatcher(error: bool)
    | Finishing(error: bool)         // the last stretch of finally
    | Ended

  datatype Loop = NoLoop | Paused | Reading | LoopEnded(raised: bool)
  datatype Analytics = NoAnalytics | Analysing | AnalyticsEnded(raised: bool)
  datatype Dispatcher = NoDispatcher | Idle | Emitting(event: Event) | Dispatched
  datatype Item = Routed(event: Event) | StopMark

  // A resource and how often its close was called.
  datatype Resource = Resource(built: bool, closed: bool, closes: nat)

  // The lifecycle state, every state entered in order, and how many requests were refused.
  datatype Life = Life(name: Name, history: seq<Name>, invalid: nat)

  datatype Counts = Counts(callbacks: nat, dropped: nat, rejected: nat, emitted: nat, sinkFailures: nat)

  // The event queue and what went through it.
  datatype Events = Events(
    items: seq<Item>,                // _event_queue
    unfinished: int,
    capacity: nat,
    dispatcher: Dispatcher,
    accepted: seq<Event>,            // events put on the queue, in order
    delivered: seq<Event>,           // events the sink was called with, in order
    counts: Counts)

  datatype State = State(
    life: Life,                      // _state
    accepting: bool,                 // _accepting_events
    stop: bool,                      // _stop_event
    capture: Resource,
    pipeline: Resource,
    pc: Pc,
    loop: Loop,
    reconnecting: bool,              // the capture loop's local flag
    analytics: Analytics,
    ev: Events)

  function Initial(capacity: nat): State {
    State(Life(Stopped, [Stopped], 0), false, false, Resource(false, false, 0), Resource(false, false, 0),
          NotStarted, NoLoop, false, NoAnalytics,
          Events([], 0, capacity, NoDispatcher, [], [], Counts(0, 0, 0, 0, 0)))
  }

  datatype Step =
    | Start
    | CallStop
    | CaptureBuilt(ok: bool)
    | PipelineBuilt(ok: bool)
    | LoopResumes                                // top of the capture loop
    | CaptureRead(success: bool)
    | CaptureRaises
    | AnalyticsEnds(raised: bool)
    | SupervisorWakes
    | Gathered
    | PipelineClosed(ok: bool)
    | Settle
    | Joined
    | PutMark
    | DispatcherJoined
    | Finish
    | Callback(event: Event, valid: bool)        // valid: RoutedAnalyticsEvent.from_callback accepts it
    | Take                                       // the dispatcher gets an item and calls the sink
    | SinkReturns(ok: bool)                      // not ok: an exception or the timeout

  // ------------------------------------------------------------------- shared pieces

  // _transition
  function Request(l: Life, to: Name): Life {
    if to == l.name then l
    else if !MayGo(l.name, to) then l.(invalid := l.invalid + 1)
    else Life(to, l.history + [to], l.invalid)
  }

  function CloseOnce(r: Resource): Resource {
    if r.closed || !r.built then r else Resource(true, true, r.closes + 1)
  }

  // From the end of the try block to the gather.
  function Finalize(s: State, error: bool): State {
    s.(accepting := false, stop := true, capture := CloseOnce(s.capture), pc := Gathering(error))
  }

  predicate LoopsEnded(s: State) {
    (s.loop.NoLoop? || s.loop.LoopEnded?) && (s.analytics.NoAnalytics? || s.analytics.AnalyticsEnded?)
  }

  predicate SomeRaised(s: State) {
    (s.loop.LoopEnded? && s.loop.raised) || (s.analytics.AnalyticsEnded? && s.analytics.raised)
  }

  // -------------------------------------------------------------------------- steps

  predicate Enabled(s: State, step: Step) {
    match step
    case Start => true
    case CallStop => true
    case CaptureBuilt(_) => s.pc.BuildingCapture?
    case PipelineBuilt(_) => s.pc.BuildingPipeline?
    case LoopResumes => s.loop.Paused?
    case CaptureRead(_) => s.loop.Reading?
    case CaptureRaises => s.loop.Reading?
    case AnalyticsEnds(raised) => s.analytics.Analysing? && (raised || s.stop)
    case SupervisorWakes => s.pc.Supervising? && (s.loop.LoopEnded? || s.analytics.AnalyticsEnded?)
    case Gathered => s.pc.Gathering? && LoopsEnded(s)
    case PipelineClosed(_) => s.pc.ClosingPipeline?
    case Settle => s.pc.Settling?
    case Joined => s.pc.Joining? && s.ev.unfinished == 0
    case PutMark => s.pc.PuttingMark? && |s.ev.items| < s.ev.capacity
    case DispatcherJoined => s.pc.AwaitingDispatcher? && s.ev.dispatcher.Dispatched?
    case Finish => s.pc.Finishing?
    case Callback(_, _) => true
    case Take => s.ev.dispatcher.Idle? && |s.ev.items| > 0
    case SinkReturns(_) => s.ev.dispatcher.Emitting?
  }

  function StartStep(s: State): State {
    if !s.pc.NotStarted? then s else s.(life := Request(s.life, Starting), pc := BuildingCapture)
  }

  function StopStep(s: State): State {
    if s.pc.NotStarted? then s
    else
      var name := s.life.name;
      s.(life := if !s.pc.Ended? && (name == Starting || name == Running || name == Reconnecting)
                 then Request(s.life, Stopping) else s.life,
         accepting := false, stop := true, capture := CloseOnce(s.capture))
  }

  function CaptureBuiltStep(s: State, ok: bool): State {
    if !ok then Finalize(s, true)
    else
      var s1 := s.(capture := s.capture.(built := true));
      if s.stop then Finalize(s1, false) else s1.(pc := BuildingPipeline)
  }

  function PipelineBuiltStep(s: State, ok: bool): State {
    if !ok then Finalize(s, true)
    else
      var s1 := s.(pipeline := s.pipeline.(built := true));
      if s.stop then Finalize(s1, false)
      else s1.(accepting := true, ev := s.ev.(dispatcher := Idle), loop := Paused, analytics := Analysing,
               life := Request(s.life, Running), pc := Supervising)
  }

  function CaptureReadStep(s: State, success: bool): State {
    if s.stop then s.(loop := LoopEnded(false))
    else if success then
      (if s.reconnecting then s.(reconnecting := false, life := Request(s.life, Running)) else s)
    else if !s.reconnecting then s.(reconnecting := true, life := Request(s.life, Reconnecting), loop := Paused)
    else s.(loop := Paused)
  }

  function GatheredStep(s: State): State
    requires s.pc.Gathering?
  {
    var error := s.pc.error || SomeRaised(s);
    if s.pipeline.closed || !s.pipeline.built then s.(pc := Settling(error))
    else s.(pipeline := CloseOnce(s.pipeline), pc := ClosingPipeline(error))
  }

  function SettleStep(s: State): State
    requires s.pc.Settling?
  {
    if s.ev.dispatcher.NoDispatcher? then s.(pc := Finishing(s.pc.error))
    else if s.ev.dispatcher.Dispatched? then
      s.(ev := s.ev.(items := [], unfinished := s.ev.unfinished - |s.ev.items|), pc := Finishing(s.pc.error))
    else s.(pc := Joining(s.pc.error))
  }

  function FinishStep(s: State): State
    requires s.pc.Finishing?
  {
    if s.pc.error then s.(life := Request(s.life, Failed), pc := Ended)
    else s.(life := Request(Request(s.life, Stopping), Stopped), pc := Ended)
  }

  // _queue_event
  function CallbackStep(e: Events, open: bool, event: Event, valid: bool): Events {
    var c := e.counts.(callbacks := e.counts.callbacks + 1);
    if !open then e.(counts := c.(dropped := c.dropped + 1))
    else if !valid then e.(counts := c.(rejected := c.rejected + 1))
    else if |e.items| >= e.capacity then e.(counts := c.(dropped := c.dropped + 1))
    else e.(items := e.items + [Routed(event)], unfinished := e.unfinished + 1, accepted := e.accepted + [event],
            counts := c)
  }

  function TakeStep(e: Events): Events
    requires |e.items| > 0
  {
    match e.items[0]
    case StopMark => e.(items := e.items[1..], unfinished := e.unfinished - 1, dispatcher := Dispatched)
    case Routed(event) => e.(items := e.items[1..], dispatcher := Emitting(event), delivered := e.delivered + [event])
  }

  function SinkReturnsStep(e: Events, ok: bool): Events {
    e.(dispatcher := Idle, unfinished := e.unfinished - 1,
       counts := if ok then e.counts.(emitted := e.counts.emitted + 1)
                 else e.counts.(sinkFailures := e.counts.sinkFailures + 1))
  }

  function Next(s: State, step: Step): State
    requires Enabled(s, step)
  {
    match step
    case Start => StartStep(s)
    case CallStop => StopStep(s)
    case CaptureBuilt(ok) => CaptureBuiltStep(s, ok)
    case PipelineBuilt(ok) => PipelineBuiltStep(s, ok)
    case LoopResumes => s.(loop := if s.stop then LoopEnded(false) else Reading)
    case CaptureRead(success) => CaptureReadStep(s, success)
    case CaptureRaises => s.(loop := LoopEnded(true))
    case AnalyticsEnds(raised) => s.(analytics := AnalyticsEnded(raised))
    case SupervisorWakes => Finalize(s, SomeRaised(s) || !s.stop)
    case Gathered => GatheredStep(s)
    case PipelineClosed(ok) => s.(pc := Settling(s.pc.error || !ok))
    case Settle => SettleStep(s)
    case Joined => s.(pc := PuttingMark(s.pc.error))
    case PutMark =>
      s.(ev := s.ev.(items := s.ev.items + [StopMark], unfinished := s.ev.unfinished + 1),
         pc := AwaitingDispatcher(s.pc.error))
    case DispatcherJoined => s.(pc := Finishing(s.pc.error))
    case Finish => FinishStep(s)
    case Callback(event, valid) => s.(ev := CallbackStep(s.ev, s.accepting && !s.stop, event, valid))
    case Take => s.(ev := TakeStep(s.ev))
    case SinkReturns(ok) => s.(ev := SinkReturnsStep(s.ev, ok))
  }
}
