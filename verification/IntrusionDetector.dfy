/** Rate-limited intrusion alerts with pruning of old cooldown entries. */
module IntrusionDetector {
  import opened Prelude

  type Time = int
  type TrackId = int

  datatype Key = Key(zone: nat, track: TrackId)
  datatype Event = Event(key: Key, enter: bool, at: Time)
  datatype Alert = Alert(key: Key, at: Time)
  datatype Config = Config(zones: set<nat>, cooldown: nat, margin: nat)

  type Last = map<Key, Time>

  // ----------------------------------------------------------------------- the rules

  predicate Watched(g: Config, e: Event) { e.key.zone in g.zones && e.enter }

  // A watched entry that the cooldown suppresses.
  predicate Suppressed(g: Config, last: Last, e: Event) { e.key in last && e.at - last[e.key] < g.cooldown }

  // The loop of check over a batch, with no pruning: the alerts, and what is remembered.
  function Alerts(g: Config, last: Last, events: seq<Event>): seq<Alert>
    decreases |events|
  {
    if events == [] then []
    else if !Watched(g, events[0]) || Suppressed(g, last, events[0]) then Alerts(g, last, events[1..])
    else [Alert(events[0].key, events[0].at)] + Alerts(g, last[events[0].key := events[0].at], events[1..])
  }

  function Remembered(g: Config, last: Last, events: seq<Event>): Last
    decreases |events|
  {
    if events == [] then last
    else if !Watched(g, events[0]) || Suppressed(g, last, events[0]) then Remembered(g, last, events[1..])
    else Remembered(g, last[events[0].key := events[0].at], events[1..])
  }

  // cleanup
  predicate Retained(g: Config, last: Last, at: Time, active: Option<set<TrackId>>, k: Key) {
    && k in last && last[k] >= at - (g.cooldown + g.margin)
    && (active.Some? ==> k.track in active.value)
  }

  function Pruned(g: Config, last: Last, at: Time, active: Option<set<TrackId>>): Last {
    map k | k in last && Retained(g, last, at, active, k) :: last[k]
  }

  function Latest(events: seq<Event>): (m: Time)
    requires events != []
    ensures forall e :: e in events ==> e.at <= m
    ensures exists e :: e in events && e.at == m
    decreases |events|
  {
    assert events == [events[0]] + events[1..];
    if |events| == 1 then events[0].at
    else
      var rest := Latest(events[1..]);
      if events[0].at >= rest then events[0].at else rest
  }

  function BeforeCheck(g: Config, last: Last, events: seq<Event>): Last {
    if events == [] then last else Pruned(g, last, Latest(events), None)
  }

  // a remembers part of what b remembers.
  predicate Within(a: Last, b: Last) { forall k :: k in a ==> k in b && b[k] == a[k] }

  // The first watched entry of a forgotten key that its cooldown should suppress.
  predicate Escapes(g: Config, a: Last, b: Last, events: seq<Event>, i: nat)
    requires i < |events|
  {
    && Watched(g, events[i]) && Suppressed(g, b, events[i]) && events[i].key !in a
    && forall j :: 0 <= j < i ==> !(Watched(g, events[j]) && events[j].key == events[i].key)
  }

  lemma {:induction false} FirstAlertRespectsCooldown(g: Config, last: Last, events: seq<Event>)
    ensures var out := Alerts(g, last, events);
      out != [] && out[0].key in last ==> out[0].at - last[out[0].key] >= g.cooldown
    decreases |events|
  {
    if events != [] { FirstAlertRespectsCooldown(g, last, events[1..]); }
  }

  /** One batch: the alerts after forgetting equal those of fuller memory exactly when
      the batch has no first watched entry, of a key that was forgotten, within the
      cooldown of that key's last alert. */
  lemma {:induction false} ForgettingShowsIff(g: Config, a: Last, b: Last, events: seq<Event>)
    requires Within(a, b)
    ensures Alerts(g, a, events) == Alerts(g, b, events)
       <==> forall i: nat :: i < |events| ==> !Escapes(g, a, b, events, i)
    decreases |events|
  {
    if events != [] {
      var e, rest := events[0], events[1..];
      assert forall i: nat :: i < |rest| ==> events[i + 1] == rest[i];
      if !Watched(g, e) {
        ForgettingShowsIff(g, a, b, rest);
        SameEscapes(g, a, b, a, b, events);
      } else if Suppressed(g, b, e) && e.key !in a {
        FirstAlertRespectsCooldown(g, b, rest);
        assert Escapes(g, a, b, events, 0);
      } else if Suppressed(g, b, e) {
        ForgettingShowsIff(g, a, b, rest);
        SameEscapes(g, a, b, a, b, events);
      } else {
        var a', b' := a[e.key := e.at], b[e.key := e.at];
        ForgettingShowsIff(g, a', b', rest);
        SameEscapes(g, a, b, a', b', events);
        assert Alerts(g, a, events)[1..] == Alerts(g, a', rest) && Alerts(g, b, events)[1..] == Alerts(g, b', rest);
      }
    }
  }

  // With nothing escaping at the front, what escapes later is what escapes of the rest.
  lemma SameEscapes(g: Config, a: Last, b: Last, a': Last, b': Last, events: seq<Event>)
    requires events != [] && Within(a, b) && Within(a', b')
    requires var e := events[0];
      || (a' == a && b' == b && (!Watched(g, e) || e.key in a))
      || (Watched(g, e) && !Suppressed(g, b, e) && a' == a[e.key := e.at] && b' == b[e.key := e.at])
    ensures (forall i: nat :: i < |events| ==> !Escapes(g, a, b, events, i))
       <==> (forall i: nat :: i < |events| - 1 ==> !Escapes(g, a', b', events[1..], i))
  {
    var rest := events[1..];
    forall i: nat | i < |rest|
      ensures Escapes(g, a', b', rest, i) <==> Escapes(g, a, b, events, i + 1)
    {
      assert rest[i] == events[i + 1];
      if Escapes(g, a', b', rest, i) {
        forall j | 0 <= j < i + 1 ensures !(Watched(g, events[j]) && events[j].key == events[i + 1].key) {
          if j > 0 { assert events[j] == rest[j - 1]; }
        }
      }
      if Escapes(g, a, b, events, i + 1) {
        forall j | 0 <= j < i ensures !(Watched(g, rest[j]) && rest[j].key == rest[i].key) {
          assert rest[j] == events[j + 1];
        }
      }
    }
    if i: nat :| i < |events| && Escapes(g, a, b, events, i) {
      assert i > 0;
      assert Escapes(g, a', b', rest, i - 1);
    }
    if i: nat :| i < |rest| && Escapes(g, a', b', rest, i) {
      assert Escapes(g, a, b, events, i + 1);
    }
  }

  /** Cleanup with an active set forgets cooldowns: a track that leaves and comes
      back two seconds after its alert raises a second one under a cooldown of five. */
  lemma ActiveSetForgetsCooldown()
    ensures var g := Config({0}, 5, 60); var k := Key(0, 7);
      var last := Remembered(g, map[], [Event(k, true, 100)]);
      var back := [Event(k, true, 102)];
      && Alerts(g, map[], [Event(k, true, 100)]) == [Alert(k, 100)]
      && Alerts(g, last, back) == []
      && Alerts(g, Pruned(g, last, 101, Some({})), back) == [Alert(k, 102)]
  {
    var g, k := Config({0}, 5, 60), Key(0, 7);
    var first, back := [Event(k, true, 100)], [Event(k, true, 102)];
    var last := Remembered(g, map[], first);
    assert back[1..] == [] && first[1..] == [];
    var none: Last := map[];
    assert Watched(g, first[0]) && !Suppressed(g, none, first[0]);
    assert Remembered(g, none, first) == Remembered(g, none[k := 100], []);
    assert last == map[k := 100];
    assert Pruned(g, last, 101, Some({})) == map[];
  }

  // The time of the last alert of the key, among these and before them.
  function LastAlert(last: Last, out: seq<Alert>, k: Key): Option<Time>
    decreases |out|
  {
    if out == [] then (if k in last then Some(last[k]) else None)
    else if out[|out| - 1].key == k then Some(out[|out| - 1].at)
    else LastAlert(last, out[..|out| - 1], k)
  }

  // An entry into a watched zone with no alert of its zone and track less than the cooldown ago.
  predicate Raises(g: Config, last: Last, out: seq<Alert>, e: Event) {
    && e.enter && e.key.zone in g.zones
    && (LastAlert(last, out, e.key).None? || e.at >= LastAlert(last, out, e.key).value + g.cooldown)
  }

  // What a detector remembers is the last alert of each key.
  lemma {:induction false} AlertsRemembered(g: Config, last: Last, events: seq<Event>, e: Event)
    ensures var out, last' := Alerts(g, last, events), Remembered(g, last, events);
      && Alerts(g, last, events + [e]) == out + Alerts(g, last', [e])
      && Remembered(g, last, events + [e]) == Remembered(g, last', [e])
    decreases |events|
  {
    if events == [] {
      assert events + [e] == [e] && [] + Alerts(g, last, [e]) == Alerts(g, last, [e]);
    } else {
      assert (events + [e])[0] == events[0] && (events + [e])[1..] == events[1..] + [e];
      AlertsRemembered(g, last, events[1..], e);
      AlertsRemembered(g, last[events[0].key := events[0].at], events[1..], e);
    }
  }

  lemma {:induction false} RememberedIsLast(g: Config, last: Last, events: seq<Event>, k: Key)
    ensures var last' := Remembered(g, last, events);
      (if k in last' then Some(last'[k]) else None) == LastAlert(last, Alerts(g, last, events), k)
    decreases |events|
  {
    if events != [] {
      var n, e := |events| - 1, events[|events| - 1];
      var out, last' := Alerts(g, last, events[..n]), Remembered(g, last, events[..n]);
      assert events == events[..n] + [e] && [e][1..] == [];
      RememberedIsLast(g, last, events[..n], k);
      AlertsRemembered(g, last, events[..n], e);
      if Watched(g, e) && !Suppressed(g, last', e) {
        assert Alerts(g, last', [e]) == [Alert(e.key, e.at)];
        assert (out + [Alert(e.key, e.at)])[..|out|] == out;
      } else {
        assert Alerts(g, last', [e]) == [] && out + [] == out;
      }
    }
  }

  /** Event by event: an alert is raised for exactly the entries into watched zones for which no alert
      of the same zone and track was raised less than the cooldown before. */
  lemma AlertIff(g: Config, last: Last, events: seq<Event>, e: Event)
    ensures var out := Alerts(g, last, events);
      Alerts(g, last, events + [e]) == out + if Raises(g, last, out, e) then [Alert(e.key, e.at)] else []
  {
    AlertsRemembered(g, last, events, e);
    RememberedIsLast(g, last, events, e.key);
    assert [e][1..] == [];
    hide LastAlert;
  }

  // -------------------------------------------------------------------------- runs

  datatype Call = Check(events: seq<Event>) | Cleanup(at: Time, active: Option<set<TrackId>>)

  // The detector as written.
  function Run(g: Config, last: Last, calls: seq<Call>): seq<Alert>
    decreases |calls|
  {
    if calls == [] then []
    else
      match calls[0]
      case Check(events) =>
        var kept := BeforeCheck(g, last, events);
        Alerts(g, kept, events) + Run(g, Remembered(g, kept, events), calls[1..])
      case Cleanup(at, active) => Run(g, Pruned(g, last, at, active), calls[1..])
  }

  // A detector that never forgets.
  function RunForever(g: Config, last: Last, calls: seq<Call>): seq<Alert>
    decreases |calls|
  {
    if calls == [] then []
    else
      match calls[0]
      case Check(events) => Alerts(g, last, events) + RunForever(g, Remembered(g, last, events), calls[1..])
      case Cleanup(_, _) => RunForever(g, last, calls[1..])
  }

  // The latest time any pruning has used.
  function Mark(mark: Option<Time>, c: Call): Option<Time> {
    match c
    case Check(events) =>
      if events == [] then mark
      else if mark.Some? && mark.value > Latest(events) then mark else Some(Latest(events))
    case Cleanup(at, _) => if mark.Some? && mark.value > at then mark else Some(at)
  }

  // No cleanup has an active set, and no event is later than the retention margin allows.
  predicate OnTime(g: Config, mark: Option<Time>, calls: seq<Call>)
    decreases |calls|
  {
    calls == [] ||
    (var mark' := Mark(mark, calls[0]);
     && (calls[0].Cleanup? ==> calls[0].active.None?)
     && (calls[0].Check? ==> forall e :: e in calls[0].events ==> mark'.Some? && e.at >= mark'.value - g.margin)
     && OnTime(g, mark', calls[1..]))
  }

  // What was forgotten is too old to suppress anything on time.
  predicate OnlyOldForgotten(g: Config, a: Last, b: Last, mark: Option<Time>) {
    && Within(a, b)
    && forall k :: k in b && k !in a ==> mark.Some? && b[k] < mark.value - (g.cooldown + g.margin)
  }

  lemma {:induction false} ForgettingStaysOld(g: Config, a: Last, b: Last, mark: Option<Time>, events: seq<Event>)
    requires OnlyOldForgotten(g, a, b, mark)
    requires forall e :: e in events ==> mark.Some? && e.at >= mark.value - g.margin
    ensures Alerts(g, a, events) == Alerts(g, b, events)
    ensures OnlyOldForgotten(g, Remembered(g, a, events), Remembered(g, b, events), mark)
    decreases |events|
  {
    if events != [] {
      var e := events[0];
      assert e in events;
      assert Suppressed(g, a, e) <==> Suppressed(g, b, e);
      if !Watched(g, e) || Suppressed(g, b, e) {
        ForgettingStaysOld(g, a, b, mark, events[1..]);
      } else {
        ForgettingStaysOld(g, a[e.key := e.at], b[e.key := e.at], mark, events[1..]);
      }
    }
  }

  lemma PruningForgetsOld(g: Config, a: Last, b: Last, mark: Option<Time>, at: Time, mark': Time)
    requires OnlyOldForgotten(g, a, b, mark) && at <= mark' && (mark.Some? ==> mark.value <= mark')
    ensures OnlyOldForgotten(g, Pruned(g, a, at, None), b, Some(mark'))
  {
  }

  /** Without active sets, and with no event more than the retention margin behind
      the latest time seen, the pruning detector raises exactly the alerts of one
      that never forgets, over any run of checks and cleanups. */
  lemma {:induction false} PruningIsInvisible(g: Config, a: Last, b: Last, mark: Option<Time>, calls: seq<Call>)
    requires OnlyOldForgotten(g, a, b, mark) && OnTime(g, mark, calls)
    ensures Run(g, a, calls) == RunForever(g, b, calls)
    decreases |calls|
  {
    if calls != [] {
      var mark' := Mark(mark, calls[0]);
      match calls[0] {
        case Check(events) =>
          if events == [] {
            PruningIsInvisible(g, a, b, mark, calls[1..]);
          } else {
            PruningForgetsOld(g, a, b, mark, Latest(events), mark'.value);
            var kept := Pruned(g, a, Latest(events), None);
            ForgettingStaysOld(g, kept, b, mark', events);
            PruningIsInvisible(g, Remembered(g, kept, events), Remembered(g, b, events), mark', calls[1..]);
          }
        case Cleanup(at, active) =>
          PruningForgetsOld(g, a, b, mark, at, mark'.value);
          PruningIsInvisible(g, Pruned(g, a, at, None), b, mark', calls[1..]);
      }
    }
  }

  // One timestamp per batch, never before a time already used by a batch or a cleanup.
  predicate Steady(mark: Option<Time>, calls: seq<Call>)
    decreases |calls|
  {
    calls == [] ||
    (&& (calls[0].Check? ==> forall e, f :: e in calls[0].events && f in calls[0].events ==> e.at == f.at)
     && (mark.Some? ==> Since(mark.value, calls[0]))
     && Steady(Mark(mark, calls[0]), calls[1..]))
  }

  // No event of the call is before this time.
  predicate Since(at: Time, c: Call) { c.Check? ==> forall e :: e in c.events ==> e.at >= at }

  predicate NoActiveSets(calls: seq<Call>) {
    forall i :: 0 <= i < |calls| && calls[i].Cleanup? ==> calls[i].active.None?
  }

  lemma {:induction false} SteadyIsOnTime(g: Config, mark: Option<Time>, calls: seq<Call>)
    requires Steady(mark, calls) && NoActiveSets(calls)
    ensures OnTime(g, mark, calls)
    decreases |calls|
  {
    if calls != [] {
      assert forall i :: 0 <= i < |calls| - 1 ==> calls[1..][i] == calls[i + 1];
      SteadyIsOnTime(g, Mark(mark, calls[0]), calls[1..]);
    }
  }

  // Any two alerts of one key, in order, are at least the cooldown apart.
  predicate Spaced(g: Config, out: seq<Alert>) {
    forall i, j :: 0 <= i < j < |out| && out[i].key == out[j].key ==> out[j].at - out[i].at >= g.cooldown
  }

  predicate After(g: Config, last: Last, out: seq<Alert>) {
    forall i :: 0 <= i < |out| && out[i].key in last ==> out[i].at - last[out[i].key] >= g.cooldown
  }

  lemma {:induction false} AlertsAreSpaced(g: Config, last: Last, events: seq<Event>, more: seq<Alert>)
    requires Spaced(g, more) && After(g, Remembered(g, last, events), more)
    ensures Spaced(g, Alerts(g, last, events) + more) && After(g, last, Alerts(g, last, events) + more)
    decreases |events|
  {
    if events == [] {
      assert Alerts(g, last, events) + more == more;
    } else if !Watched(g, events[0]) || Suppressed(g, last, events[0]) {
      AlertsAreSpaced(g, last, events[1..], more);
    } else {
      var e := events[0];
      var last' := last[e.key := e.at];
      AlertsAreSpaced(g, last', events[1..], more);
      var tail := Alerts(g, last', events[1..]) + more;
      assert Alerts(g, last, events) + more == [Alert(e.key, e.at)] + tail;
      forall i | 0 <= i < |tail| && tail[i].key in last ensures tail[i].at - last[tail[i].key] >= g.cooldown {
        if tail[i].key == e.key {
          assert tail[i].at - e.at >= g.cooldown;
        } else {
          assert last'[tail[i].key] == last[tail[i].key];
        }
      }
    }
  }

  lemma {:induction false} ForeverIsSpaced(g: Config, last: Last, calls: seq<Call>)
    ensures Spaced(g, RunForever(g, last, calls)) && After(g, last, RunForever(g, last, calls))
    decreases |calls|
  {
    if calls != [] {
      match calls[0] {
        case Check(events) =>
          ForeverIsSpaced(g, Remembered(g, last, events), calls[1..]);
          AlertsAreSpaced(g, last, events, RunForever(g, Remembered(g, last, events), calls[1..]));
        case Cleanup(_, _) => ForeverIsSpaced(g, last, calls[1..]);
      }
    }
  }

  /** From a fresh detector, with one never decreasing timestamp per batch and no
      active sets: the alerts are those of a detector that never forgets, and two
      alerts of one zone and track are at least the cooldown apart. */
  lemma SteadyRunsKeepCooldown(g: Config, calls: seq<Call>)
    requires Steady(None, calls) && NoActiveSets(calls)
    ensures Run(g, map[], calls) == RunForever(g, map[], calls) && Spaced(g, Run(g, map[], calls))
  {
    SteadyIsOnTime(g, None, calls);
    PruningIsInvisible(g, map[], map[], None, calls);
    ForeverIsSpaced(g, map[], calls);
  }

  // --------------------------------------- active sets: exactly when forgetting is harmless

  // Every watched cooldown that a cleanup with this active set drops has run out by then.
  predicate DropsNothingLive(g: Config, last: Last, at: Time, active: set<TrackId>) {
    forall k :: k in last && k.zone in g.zones && k.track !in active ==> at - last[k] >= g.cooldown
  }

  predicate AllSince(at: Time, calls: seq<Call>) { forall i :: 0 <= i < |calls| ==> Since(at, calls[i]) }

  // a forgot only keys that are not watched or whose cooldown had run out at this time.
  predicate OnlyExpiredForgotten(g: Config, a: Last, b: Last, at: Time) {
    && Within(a, b)
    && forall k :: k in b && k !in a && k.zone in g.zones ==> at - b[k] >= g.cooldown
  }

  lemma {:induction false} ExpiredStaysHidden(g: Config, a: Last, b: Last, at: Time, events: seq<Event>)
    requires OnlyExpiredForgotten(g, a, b, at) && forall e :: e in events ==> e.at >= at
    ensures Alerts(g, a, events) == Alerts(g, b, events)
    ensures OnlyExpiredForgotten(g, Remembered(g, a, events), Remembered(g, b, events), at)
    decreases |events|
  {
    if events != [] {
      var e := events[0];
      assert e in events;
      if !Watched(g, e) || Suppressed(g, b, e) {
        ExpiredStaysHidden(g, a, b, at, events[1..]);
      } else {
        ExpiredStaysHidden(g, a[e.key := e.at], b[e.key := e.at], at, events[1..]);
      }
    }
  }

  lemma {:induction false} ExpiredNeverShows(g: Config, a: Last, b: Last, at: Time, calls: seq<Call>)
    requires OnlyExpiredForgotten(g, a, b, at) && AllSince(at, calls)
    ensures Run(g, a, calls) == Run(g, b, calls)
    decreases |calls|
  {
    if calls != [] {
      assert Since(at, calls[0]);
      assert forall i :: 0 <= i < |calls| - 1 ==> calls[1..][i] == calls[i + 1];
      match calls[0] {
        case Check(events) =>
          var a', b' := BeforeCheck(g, a, events), BeforeCheck(g, b, events);
          assert OnlyExpiredForgotten(g, a', b', at);
          ExpiredStaysHidden(g, a', b', at, events);
          ExpiredNeverShows(g, Remembered(g, a', events), Remembered(g, b', events), at, calls[1..]);
        case Cleanup(t, active) =>
          ExpiredNeverShows(g, Pruned(g, a, t, active), Pruned(g, b, t, active), at, calls[1..]);
      }
    }
  }

  // A watched entry at the time of the cleanup shows whether its key's cooldown was forgotten.
  lemma ReturnShows(g: Config, last: Last, k: Key, at: Time)
    requires k.zone in g.zones
    ensures var calls := [Check([Event(k, true, at)])];
      && AllSince(at, calls)
      && Run(g, last, calls) == if k in last && at - last[k] < g.cooldown then [] else [Alert(k, at)]
  {
    var e := Event(k, true, at);
    var calls := [Check([e])];
    assert [e][1..] == [] && calls[1..] == [];
    var kept := BeforeCheck(g, last, [e]);
    assert Latest([e]) == at;
    assert Alerts(g, kept, [e]) == if Suppressed(g, kept, e) then [] else [Alert(k, at)];
    assert Run(g, last, calls) == Alerts(g, kept, [e]) + Run(g, Remembered(g, kept, [e]), []);
  }

  /** A cleanup with an active set changes no later alert, whatever checks of events from then
      on and whatever cleanups follow, if and only if every watched cooldown it drops has run
      out at the time of the cleanup. */
  lemma ActiveCleanupHarmlessIff(g: Config, last: Last, at: Time, active: set<TrackId>)
    ensures (forall calls {:trigger AllSince(at, calls)} :: AllSince(at, calls) ==>
               Run(g, Pruned(g, last, at, Some(active)), calls) == Run(g, last, calls))
       <==> DropsNothingLive(g, last, at, active)
  {
    var kept := Pruned(g, last, at, Some(active));
    if DropsNothingLive(g, last, at, active) {
      assert OnlyExpiredForgotten(g, kept, last, at);
      forall calls | AllSince(at, calls) ensures Run(g, kept, calls) == Run(g, last, calls) {
        ExpiredNeverShows(g, kept, last, at, calls);
      }
    } else {
      var k :| k in last && k.zone in g.zones && k.track !in active && at - last[k] < g.cooldown;
      var calls := [Check([Event(k, true, at)])];
      ReturnShows(g, last, k, at);
      ReturnShows(g, kept, k, at);
      assert Run(g, kept, calls) != Run(g, last, calls);
    }
  }

  // At every cleanup of the run the detector's memory meets that condition.
  predicate CleanupsHarmless(g: Config, last: Last, calls: seq<Call>)
    decreases |calls|
  {
    calls == [] ||
    match calls[0]
    case Check(events) => CleanupsHarmless(g, Remembered(g, BeforeCheck(g, last, events), events), calls[1..])
    case Cleanup(at, active) =>
      && (active.Some? ==> DropsNothingLive(g, last, at, active.value))
      && CleanupsHarmless(g, Pruned(g, last, at, active), calls[1..])
  }

  // What was forgotten is not watched or its cooldown has run out at the latest time used.
  predicate OnlyDeadForgotten(g: Config, a: Last, b: Last, mark: Option<Time>) {
    if mark.Some? then OnlyExpiredForgotten(g, a, b, mark.value) else a == b
  }

  lemma {:induction false} HarmlessRunForgetsNothing(g: Config, a: Last, b: Last, mark: Option<Time>, calls: seq<Call>)
    requires OnlyDeadForgotten(g, a, b, mark) && Steady(mark, calls) && CleanupsHarmless(g, a, calls)
    ensures Run(g, a, calls) == RunForever(g, b, calls)
    decreases |calls|
  {
    if calls != [] {
      var mark' := Mark(mark, calls[0]);
      match calls[0] {
        case Check(events) =>
          if events == [] {
            HarmlessRunForgetsNothing(g, a, b, mark, calls[1..]);
          } else {
            var kept := Pruned(g, a, Latest(events), None);
            assert OnlyExpiredForgotten(g, kept, b, mark'.value);
            ExpiredStaysHidden(g, kept, b, mark'.value, events);
            HarmlessRunForgetsNothing(g, Remembered(g, kept, events), Remembered(g, b, events), mark', calls[1..]);
          }
        case Cleanup(at, active) =>
          assert OnlyExpiredForgotten(g, Pruned(g, a, at, active), b, mark'.value);
          HarmlessRunForgetsNothing(g, Pruned(g, a, at, active), b, mark', calls[1..]);
      }
    }
  }

  /** Whole runs with active sets: with one never decreasing timestamp per batch, and cleanups
      that drop no running cooldown of a watched zone, the alerts are those of a detector that
      never forgets, and two alerts of one zone and track are at least the cooldown apart. */
  lemma ActiveRunsKeepCooldown(g: Config, calls: seq<Call>)
    requires Steady(None, calls) && CleanupsHarmless(g, map[], calls)
    ensures Run(g, map[], calls) == RunForever(g, map[], calls) && Spaced(g, Run(g, map[], calls))
  {
    HarmlessRunForgetsNothing(g, map[], map[], None, calls);
    ForeverIsSpaced(g, map[], calls);
  }

  // ---------------------------------------------------------------------- the object

  lemma RetainedAreKept(g: Config, last: Last, at: Time, active: Option<set<TrackId>>, stale: set<Key>)
    requires stale == set k | k in last && !Retained(g, last, at, active, k)
    ensures Pruned(g, last, at, active) == last - stale && |last - stale| == |last| - |stale|
  {
    assert (last - stale).Keys == last.Keys - stale;
    var kept := Pruned(g, last, at, active);
    hide Retained;
    assert kept.Keys == last.Keys - stale;
  }

  // The alerts up to event i and of event i are those the rule says.
  predicate RaisesNext(g: Config, last: Last, events: seq<Event>, i: nat)
    requires i < |events|
  {
    var out := Alerts(g, last, events[..i]);
    Alerts(g, last, events[..i + 1])
    == out + if Raises(g, last, out, events[i]) then [Alert(events[i].key, events[i].at)] else []
  }

  predicate Remembers(last': Last, last: Last, out: seq<Alert>, k: Key) {
    (if k in last' then Some(last'[k]) else None) == LastAlert(last, out, k)
  }

  // Each event raises an alert by the rule, and what is remembered are the last alerts.
  ghost predicate BatchEffect(g: Config, last: Last, last': Last, events: seq<Event>, out: seq<Alert>) {
    && out == Alerts(g, last, events[..|events|])
    && (forall i :: 0 <= i < |events| ==> RaisesNext(g, last, events, i))
    && (forall k :: Remembers(last', last, out, k))
  }

  lemma BatchTakesEffect(g: Config, last: Last, events: seq<Event>)
    ensures BatchEffect(g, last, Remembered(g, last, events), events, Alerts(g, last, events))
  {
    assert events[..|events|] == events;
    forall i | 0 <= i < |events| ensures RaisesNext(g, last, events, i) {
      assert events[..i + 1] == events[..i] + [events[i]];
      AlertIff(g, last, events[..i], events[i]);
    }
    forall k ensures Remembers(Remembered(g, last, events), last, Alerts(g, last, events), k) {
      RememberedIsLast(g, last, events, k);
    }
  }

  class Detector {
    const config: Config
    var lastAlert: Last

    constructor (config: Config)
      ensures this.config == config && lastAlert == map[]
    {
      this.config := config;
      lastAlert := map[];
    }

    method CheckBatch(events: seq<Event>) returns (intrusions: seq<Alert>)
      modifies this
      ensures intrusions == Alerts(config, BeforeCheck(config, old(lastAlert), events), events)
      ensures lastAlert == Remembered(config, BeforeCheck(config, old(lastAlert), events), events)
      ensures BatchEffect(config, BeforeCheck(config, old(lastAlert), events), lastAlert, events, intrusions)
    {
      BatchTakesEffect(config, BeforeCheck(config, lastAlert, events), events);
      hide BatchEffect, Alerts, Remembered, Pruned, Latest;
      if events != [] {
        var latest := LatestOf(events);
        var dropped := CleanUp(latest, None);
      }
      intrusions := RaiseAlerts(events);
    }

    // The loop of check.
    method RaiseAlerts(events: seq<Event>) returns (intrusions: seq<Alert>)
      modifies this
      ensures intrusions == Alerts(config, old(lastAlert), events)
      ensures lastAlert == Remembered(config, old(lastAlert), events)
    {
      intrusions := [];
      ghost var start := lastAlert;
      var i := 0;
      while i < |events|
        invariant 0 <= i <= |events|
        invariant Alerts(config, start, events) == intrusions + Alerts(config, lastAlert, events[i..])
        invariant Remembered(config, start, events) == Remembered(config, lastAlert, events[i..])
      {
        var e := events[i];
        assert events[i..][0] == e && events[i..][1..] == events[i + 1..];
        i := i + 1;
        if e.key.zone in config.zones && e.enter && !Suppressed(config, lastAlert, e) {
          lastAlert := lastAlert[e.key := e.at];
          intrusions := intrusions + [Alert(e.key, e.at)];
        }
      }
      assert events[i..] == [] && intrusions + [] == intrusions;
    }

    method LatestOf(events: seq<Event>) returns (latest: Time)
      requires events != []
      ensures latest == Latest(events)
    {
      latest := events[0].at;
      var i := 1;
      while i < |events|
        invariant 1 <= i <= |events|
        invariant forall j :: 0 <= j < i ==> events[j].at <= latest
        invariant exists j :: 0 <= j < i && events[j].at == latest
      {
        if events[i].at > latest { latest := events[i].at; }
        i := i + 1;
      }
    }

    method CleanUp(at: Time, active: Option<set<TrackId>>) returns (dropped: nat)
      modifies this
      ensures lastAlert == Pruned(config, old(lastAlert), at, active)
      ensures dropped == |old(lastAlert)| - |lastAlert|
      ensures forall k :: k in lastAlert <==>
        (&& k in old(lastAlert) && old(lastAlert)[k] >= at - config.cooldown - config.margin
         && (active.Some? ==> k.track in active.value))
      ensures forall k :: k in lastAlert ==> lastAlert[k] == old(lastAlert)[k]
    {
      var stale := set k | k in lastAlert && !Retained(config, lastAlert, at, active, k);
      RetainedAreKept(config, lastAlert, at, active, stale);
      dropped := |stale|;
      lastAlert := lastAlert - stale;
    }
  }
}
