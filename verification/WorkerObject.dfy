/** The worker object itself: its atomic stretches on mutable fields, each tied to a step of the machine. */
module WorkerObject {
  import opened Worker
  import opened WorkerInvariant

  lemma StopClosesCapture(s: State)
    requires Inv(s)
    ensures s.capture.built ==> CloseOnce(s.capture).closes == 1
  {
  }

  lemma TakesOldest(s: State)
    requires Inv(s)
    ensures OldestFirst(s.ev)
  {
    HeadIsOldest(s.ev, Marked(s));
    hide QueueOk, OldestFirst;
  }

  lemma EveryEmitCounted(s: State)
    requires Inv(s) && s.ev.dispatcher.Emitting?
    ensures |s.ev.delivered| == s.ev.counts.emitted + s.ev.counts.sinkFailures + 1
  {
  }

  class CameraWorker {
    var life: Life
    var accepting: bool
    var stopEvent: bool
    var capture: Resource
    var pipeline: Resource
    var pc: Pc
    var loop: Loop
    var reconnecting: bool
    var analytics: Analytics
    var events: Events

    ghost function View(): State
      reads this
    {
      State(life, accepting, stopEvent, capture, pipeline, pc, loop, reconnecting, analytics, events)
    }

    ghost predicate Valid()
      reads this
    {
      Inv(View())
    }

    constructor (eventQueueSize: nat)
      ensures Valid() && View() == Initial(eventQueueSize)
    {
      life := Life(Name.Stopped, [Name.Stopped], 0);
      accepting, stopEvent := false, false;
      capture, pipeline := Resource(false, false, 0), Resource(false, false, 0);
      pc, loop, reconnecting, analytics := NotStarted, NoLoop, false, NoAnalytics;
      events := Events([], 0, eventQueueSize, NoDispatcher, [], [], Counts(0, 0, 0, 0, 0));
      new;
      InitialInv(eventQueueSize);
    }

    method Transition(to: Name)
      modifies this`life
      ensures life == Request(old(life), to)
      ensures to == old(life.name) || MayGo(old(life.name), to) ==>
        life.name == to && (LifeOk(old(life)) ==> LifeOk(life))
      ensures to != old(life.name) && !MayGo(old(life.name), to) ==> life.name == old(life.name) && life.invalid > 0
      ensures old(life.history) <= life.history
    {
      if to == life.name { return; }
      if !MayGo(life.name, to) {
        life := life.(invalid := life.invalid + 1);
        return;
      }
      life := life.(name := to);
      life := life.(history := life.history + [to]);
    }

    method CloseCaptureOnce()
      modifies this`capture
      ensures capture == CloseOnce(old(capture))
    {
      if capture.closed || !capture.built { return; }
      capture := capture.(closed := true);
      capture := capture.(closes := capture.closes + 1);
    }

    method Start()
      requires Valid()
      modifies this`life, this`pc
      ensures Valid() && View() == StartStep(old(View()))
      ensures old(pc).NotStarted? ==> life.name == Starting && pc.BuildingCapture?
      ensures !old(pc).NotStarted? ==> life == old(life) && pc == old(pc)
    {
      StepKeepsInv(View(), Step.Start);
      if pc.NotStarted? {
        Transition(Starting);
        pc := BuildingCapture;
      }
    }

    // stop, up to its wait for the supervisor.
    method RequestStop()
      requires Valid()
      modifies this`life, this`accepting, this`stopEvent, this`capture
      ensures Valid() && View() == StopStep(old(View()))
      ensures !pc.NotStarted? ==> stopEvent && !accepting && (capture.built ==> capture.closes == 1)
      ensures life.name
           == if old(life.name) in {Starting, Running, Reconnecting} && !pc.Ended? then Name.Stopping
              else old(life.name)
      ensures pc.NotStarted? ==> View() == old(View())
    {
      StepKeepsInv(View(), CallStop);
      StopClosesCapture(View());
      if pc.NotStarted? { return; }
      if !pc.Ended? && (life.name == Starting || life.name == Running || life.name == Reconnecting) {
        Transition(Name.Stopping);
      }
      accepting := false;
      stopEvent := true;
      CloseCaptureOnce();
    }

    method CaptureResult(success: bool)
      requires Valid() && loop.Reading?
      modifies this`life, this`loop, this`reconnecting
      ensures Valid() && View() == CaptureReadStep(old(View()), success)
      ensures life.invalid == 0
      // Stopping ends the loop; a failed read makes a pause; a first failure and the success after it are reported.
      ensures loop == if stopEvent then LoopEnded(false) else if success then Reading else Paused
      ensures !stopEvent ==> reconnecting == !success
      ensures !stopEvent && old(reconnecting) == success ==> life.name == if success then Running else Reconnecting
      ensures stopEvent || old(reconnecting) != success ==> life == old(life)
    {
      StepKeepsInv(View(), CaptureRead(success));
      if stopEvent {
        loop := LoopEnded(false);
      } else if success {
        if reconnecting {
          reconnecting := false;
          Transition(Running);
        }
      } else {
        if !reconnecting {
          reconnecting := true;
          Transition(Reconnecting);
        }
        loop := Paused;
      }
    }

    method Count(counts: Counts)
      modifies this`events
      ensures events == old(events).(counts := counts)
    {
      events := events.(counts := counts);
    }

    method QueueEvent(event: Event, valid: bool) returns (queued: bool)
      requires Valid()
      modifies this`events
      ensures Valid() && events == CallbackStep(old(events), accepting && !stopEvent, event, valid)
      ensures queued <==> accepting && !stopEvent && valid && |old(events).items| < events.capacity
      ensures events.accepted == if queued then old(events).accepted + [event] else old(events).accepted
      ensures events.items == if queued then old(events).items + [Routed(event)] else old(events).items
      ensures events.unfinished == old(events).unfinished + if queued then 1 else 0
      ensures events.counts.callbacks == old(events).counts.callbacks + 1
      ensures events.counts.rejected
           == old(events).counts.rejected + if accepting && !stopEvent && !valid then 1 else 0
      ensures events.counts.dropped
           == old(events).counts.dropped + if !queued && (!accepting || stopEvent || valid) then 1 else 0
    {
      StepKeepsInv(View(), Callback(event, valid));
      queued := false;
      var c := events.counts.(callbacks := events.counts.callbacks + 1);
      if !accepting || stopEvent {
        Count(c.(dropped := c.dropped + 1));
      } else if !valid {
        Count(c.(rejected := c.rejected + 1));
      } else if |events.items| >= events.capacity {
        Count(c.(dropped := c.dropped + 1));
      } else {
        events := events.(items := events.items + [Routed(event)], unfinished := events.unfinished + 1,
                          accepted := events.accepted + [event], counts := c);
        queued := true;
      }
    }

    method TakeItem() returns (item: Item)
      requires Valid() && events.dispatcher.Idle? && |events.items| > 0
      modifies this`events
      ensures Valid() && events == TakeStep(old(events))
      ensures item == old(events).items[0] && events.items == old(events).items[1..]
      ensures events.dispatcher == if item.StopMark? then Dispatched else Emitting(item.event)
      ensures events.unfinished == old(events).unfinished - if item.StopMark? then 1 else 0
      ensures events.delivered == old(events).delivered + if item.StopMark? then [] else [item.event]
      ensures item.Routed? ==>
        |old(events).delivered| < |events.accepted| && item.event == events.accepted[|old(events).delivered|]
    {
      StepKeepsInv(View(), Take);
      TakesOldest(View());
      item := events.items[0];
      events := events.(items := events.items[1..]);
      match item {
        case StopMark =>
          events := events.(unfinished := events.unfinished - 1, dispatcher := Dispatched);
        case Routed(event) =>
          events := events.(dispatcher := Emitting(event), delivered := events.delivered + [event]);
      }
    }

    method SinkReturned(ok: bool)
      requires Valid() && events.dispatcher.Emitting?
      modifies this`events
      ensures Valid() && events == SinkReturnsStep(old(events), ok)
      ensures events.counts.emitted + events.counts.sinkFailures == |events.delivered|
      ensures events.counts.emitted == old(events).counts.emitted + if ok then 1 else 0
      ensures events.counts.sinkFailures == old(events).counts.sinkFailures + if ok then 0 else 1
      ensures events.dispatcher.Idle? && events.unfinished == old(events).unfinished - 1
      ensures events.items == old(events).items && events.delivered == old(events).delivered
    {
      StepKeepsInv(View(), SinkReturns(ok));
      EveryEmitCounted(View());
      var c := events.counts;
      if ok {
        Count(c.(emitted := c.emitted + 1));
      } else {
        Count(c.(sinkFailures := c.sinkFailures + 1));
      }
      events := events.(dispatcher := Idle, unfinished := events.unfinished - 1);
    }

    // The last stretch of the supervisor's finally block.
    method FinishRun()
      requires Valid() && pc.Finishing?
      modifies this`life, this`pc
      ensures Valid() && View() == FinishStep(old(View()))
      ensures life.name == if old(pc.error) then Name.Failed else Name.Stopped
      ensures events.delivered == events.accepted && ClosedIffBuilt(capture) && ClosedIffBuilt(pipeline)
    {
      StepKeepsInv(View(), Finish);
      if pc.error {
        Transition(Name.Failed);
      } else {
        Transition(Name.Stopping);
        Transition(Name.Stopped);
      }
      pc := Ended;
    }
  }
}
