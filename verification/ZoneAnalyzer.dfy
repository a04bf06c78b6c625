/** Stateful polygon entry and exit analysis; whether a point lies in a zone is an input. */
module ZoneAnalyzer {
  import opened Prelude

  type TrackId = int
  type ZoneId = nat

  datatype Move = Enter | Exit
  datatype Key = Key(zone: ZoneId, track: TrackId)
  datatype ZoneEvent = ZoneEvent(key: Key, move: Move)

  // A tracked object and the zones its centroid is in.
  datatype Item = Item(track: TrackId, inside: set<ZoneId>)

  datatype Analyzer = Analyzer(presence: map<Key, bool>, lastSeen: map<TrackId, nat>, frame: nat)

  function Initial(): Analyzer { Analyzer(map[], map[], 0) }

  predicate Was(presence: map<Key, bool>, key: Key) { key in presence && presence[key] }

  // -------------------------------------------------------------------------- frames

  // One object against the zones, in order.
  function ItemEvents(presence: map<Key, bool>, item: Item, zones: seq<ZoneId>): (map<Key, bool>, seq<ZoneEvent>)
    decreases |zones|
  {
    if zones == [] then (presence, [])
    else
      var key := Key(zones[0], item.track);
      var inside := zones[0] in item.inside;
      var (p, events) := ItemEvents(presence[key := inside], item, zones[1..]);
      (p, if inside != Was(presence, key) then [ZoneEvent(key, if inside then Enter else Exit)] + events else events)
  }

  function FrameEvents(a: Analyzer, items: seq<Item>, zones: seq<ZoneId>): (Analyzer, seq<ZoneEvent>)
    decreases |items|
  {
    if items == [] then (a, [])
    else
      var (p, now) := ItemEvents(a.presence, items[0], zones);
      var (a', later) := FrameEvents(a.(presence := p, lastSeen := a.lastSeen[items[0].track := a.frame]), items[1..],
                                     zones);
      (a', now + later)
  }

  function Stale(a: Analyzer, limit: nat): set<TrackId> {
    set t | t in a.lastSeen && a.frame - a.lastSeen[t] > limit
  }

  function Discarded(a: Analyzer, limit: nat): Analyzer {
    var stale := Stale(a, limit);
    a.(lastSeen := a.lastSeen - stale,
       presence := map k | k in a.presence && k.track !in stale :: a.presence[k])
  }

  function Analysed(a: Analyzer, items: seq<Item>, zones: seq<ZoneId>, limit: nat): (Analyzer, seq<ZoneEvent>) {
    var (a', events) := FrameEvents(a.(frame := a.frame + 1), items, zones);
    (Discarded(a', limit), events)
  }

  // ------------------------------------------------------------------------- history

  // The moves of each zone and track in the stay the track is in, and those of the stays that ended.
  datatype History = History(current: map<Key, seq<Move>>, ended: seq<seq<Move>>)

  function MovesOf(h: History, key: Key): seq<Move> { if key in h.current then h.current[key] else [] }

  function Recorded(h: History, events: seq<ZoneEvent>): History
    decreases |events|
  {
    if events == [] then h
    else
      var e := events[0];
      Recorded(h.(current := h.current[e.key := MovesOf(h, e.key) + [e.move]]), events[1..])
  }

  // The moves of the dropped tracks, in any order.
  ghost function Ended(current: map<Key, seq<Move>>, dropped: set<Key>): seq<seq<Move>>
    requires dropped <= current.Keys
    decreases |dropped|
  {
    if dropped == {} then [] else
      var k :| k in dropped;
      [current[k]] + Ended(current, dropped - {k})
  }

  ghost function Closed(h: History, stale: set<TrackId>): History {
    var dropped := set k | k in h.current && k.track in stale;
    History(h.current - dropped, h.ended + Ended(h.current, dropped))
  }

  ghost function Follow(a: Analyzer, h: History, items: seq<Item>, zones: seq<ZoneId>, limit: nat): History {
    var (a', events) := FrameEvents(a.(frame := a.frame + 1), items, zones);
    Closed(Recorded(h, events), Stale(a', limit))
  }

  predicate StayOk(moves: seq<Move>) { Alternates(moves, Enter, Exit) }

  // A track is inside a zone exactly when it entered once more than it left.
  predicate KeyOk(presence: map<Key, bool>, h: History, key: Key) {
    StayOk(MovesOf(h, key)) && (Was(presence, key) <==> |MovesOf(h, key)| % 2 == 1)
  }

  ghost predicate Inv(presence: map<Key, bool>, h: History) {
    && (forall k {:trigger KeyOk(presence, h, k)} :: KeyOk(presence, h, k))
    && (forall i :: 0 <= i < |h.ended| ==> StayOk(h.ended[i]))
  }

  lemma RecordedSplits(h: History, a: seq<ZoneEvent>, b: seq<ZoneEvent>)
    ensures Recorded(h, a + b) == Recorded(Recorded(h, a), b)
    decreases |a|
  {
    if a == [] {
      assert a + b == b;
    } else {
      assert (a + b)[0] == a[0] && (a + b)[1..] == a[1..] + b;
      RecordedSplits(h.(current := h.current[a[0].key := MovesOf(h, a[0].key) + [a[0].move]]), a[1..], b);
    }
  }

  lemma {:induction false} ItemKeepsInv(presence: map<Key, bool>, h: History, item: Item, zones: seq<ZoneId>)
    requires Inv(presence, h)
    ensures Inv(ItemEvents(presence, item, zones).0, Recorded(h, ItemEvents(presence, item, zones).1))
    decreases |zones|
  {
    if zones != [] {
      var key := Key(zones[0], item.track);
      var inside := zones[0] in item.inside;
      var p := presence[key := inside];
      var moves := MovesOf(h, key);
      var h' := if inside != Was(presence, key)
                then h.(current := h.current[key := moves + [if inside then Enter else Exit]]) else h;
      assert KeyOk(presence, h, key);
      forall k ensures KeyOk(p, h', k) { assert KeyOk(presence, h, k); }
      ItemKeepsInv(p, h', item, zones[1..]);
      var later := ItemEvents(p, item, zones[1..]).1;
      if inside != Was(presence, key) {
        var e := ZoneEvent(key, if inside then Enter else Exit);
        assert ([e] + later)[1..] == later;
      }
    }
  }

  lemma {:induction false} FrameKeepsInv(a: Analyzer, h: History, items: seq<Item>, zones: seq<ZoneId>)
    requires Inv(a.presence, h)
    ensures Inv(FrameEvents(a, items, zones).0.presence, Recorded(h, FrameEvents(a, items, zones).1))
    decreases |items|
  {
    if items != [] {
      var (p, now) := ItemEvents(a.presence, items[0], zones);
      var a1 := a.(presence := p, lastSeen := a.lastSeen[items[0].track := a.frame]);
      ItemKeepsInv(a.presence, h, items[0], zones);
      FrameKeepsInv(a1, Recorded(h, now), items[1..], zones);
      RecordedSplits(h, now, FrameEvents(a1, items[1..], zones).1);
    }
  }

  lemma {:induction false} EndedAreOk(current: map<Key, seq<Move>>, dropped: set<Key>)
    requires dropped <= current.Keys && forall k :: k in dropped ==> StayOk(current[k])
    ensures forall i :: 0 <= i < |Ended(current, dropped)| ==> StayOk(Ended(current, dropped)[i])
    decreases |dropped|
  {
    if dropped != {} {
      var k :| k in dropped && Ended(current, dropped) == [current[k]] + Ended(current, dropped - {k});
      EndedAreOk(current, dropped - {k});
    }
  }

  lemma DiscardKeepsInv(a: Analyzer, h: History, limit: nat)
    requires Inv(a.presence, h)
    ensures Inv(Discarded(a, limit).presence, Closed(h, Stale(a, limit)))
  {
    var stale := Stale(a, limit);
    var dropped := set k | k in h.current && k.track in stale;
    forall k | k in dropped ensures StayOk(h.current[k]) { assert KeyOk(a.presence, h, k); }
    EndedAreOk(h.current, dropped);
    var h' := Closed(h, stale);
    forall k ensures KeyOk(Discarded(a, limit).presence, h', k) { assert KeyOk(a.presence, h, k); }
  }

  datatype World = World(a: Analyzer, h: History)

  ghost function Exec(w: World, frames: seq<seq<Item>>, zones: seq<ZoneId>, limit: nat): World
    decreases |frames|
  {
    if frames == [] then w
    else Exec(World(Analysed(w.a, frames[0], zones, limit).0, Follow(w.a, w.h, frames[0], zones, limit)), frames[1..],
              zones, limit)
  }

  /** Over any run of frames, within each stay of a track ENTER and EXIT alternate
      for every zone, beginning with ENTER, and the track is inside exactly when
      the last of them is an ENTER; stays that were dropped alternated too. */
  lemma {:induction false} EntriesAndExitsAlternate(w: World, frames: seq<seq<Item>>, zones: seq<ZoneId>, limit: nat)
    requires Inv(w.a.presence, w.h)
    ensures var w' := Exec(w, frames, zones, limit); Inv(w'.a.presence, w'.h)
    decreases |frames|
  {
    if frames != [] {
      var a1 := w.a.(frame := w.a.frame + 1);
      FrameKeepsInv(a1, w.h, frames[0], zones);
      var (a2, events) := FrameEvents(a1, frames[0], zones);
      DiscardKeepsInv(a2, Recorded(w.h, events), limit);
      EntriesAndExitsAlternate(World(Analysed(w.a, frames[0], zones, limit).0,
                                     Follow(w.a, w.h, frames[0], zones, limit)),
                               frames[1..], zones, limit);
    }
  }

  lemma InitialInv()
    ensures Inv(Initial().presence, History(map[], []))
  {
  }

  /** From a new analyzer: whatever the frames, the moves of every zone and track in the track's
      present stay alternate from ENTER, the recorded presence is that of the last of them, and
      the moves of every stay that was dropped alternated too. */
  lemma AlternateFromStart(frames: seq<seq<Item>>, zones: seq<ZoneId>, limit: nat, key: Key)
    ensures var w := Exec(World(Initial(), History(map[], [])), frames, zones, limit);
      && Alternates(MovesOf(w.h, key), Enter, Exit)
      && (Was(w.a.presence, key) <==> MovesOf(w.h, key) != [] && MovesOf(w.h, key)[|MovesOf(w.h, key)| - 1] == Enter)
      && forall i :: 0 <= i < |w.h.ended| ==> Alternates(w.h.ended[i], Enter, Exit)
  {
    var start := World(Initial(), History(map[], []));
    InitialInv();
    EntriesAndExitsAlternate(start, frames, zones, limit);
    var w := Exec(start, frames, zones, limit);
    assert KeyOk(w.a.presence, w.h, key);
  }

  // ------------------------------------------------------ presence is where tracks are seen

  // Whether each of a track's items in a frame lies in the zone, in order.
  function Sightings(items: seq<Item>, key: Key): seq<bool> {
    if items == [] then []
    else
      Sightings(items[..|items| - 1], key)
      + if items[|items| - 1].track == key.track then [key.zone in items[|items| - 1].inside] else []
  }

  // The moves of a walk that starts inside or outside: one wherever it changes over.
  function Walk(inside: bool, sightings: seq<bool>): seq<Move>
    decreases |sightings|
  {
    if sightings == [] then []
    else (if sightings[0] == inside then [] else [if sightings[0] then Enter else Exit])
         + Walk(sightings[0], sightings[1..])
  }

  // Where the walk ends.
  function Ends(inside: bool, sightings: seq<bool>): bool {
    if sightings == [] then inside else sightings[|sightings| - 1]
  }

  // The moves of one zone and track among the events, in order.
  function MovesFor(events: seq<ZoneEvent>, key: Key): seq<Move> {
    if events == [] then []
    else (if events[0].key == key then [events[0].move] else []) + MovesFor(events[1..], key)
  }

  lemma {:induction false} MovesJoin(a: seq<ZoneEvent>, b: seq<ZoneEvent>, key: Key)
    ensures MovesFor(a + b, key) == MovesFor(a, key) + MovesFor(b, key)
    decreases |a|
  {
    if a == [] {
      assert a + b == b;
    } else {
      assert (a + b)[0] == a[0] && (a + b)[1..] == a[1..] + b;
      MovesJoin(a[1..], b, key);
    }
  }

  lemma {:induction false} SightingsJoin(a: seq<Item>, b: seq<Item>, key: Key)
    ensures Sightings(a + b, key) == Sightings(a, key) + Sightings(b, key)
    decreases |b|
  {
    if b == [] {
      assert a + b == a;
    } else {
      var n := |b| - 1;
      assert (a + b)[..|a + b| - 1] == a + b[..n];
      SightingsJoin(a, b[..n], key);
    }
  }

  lemma {:induction false} WalkJoin(inside: bool, a: seq<bool>, b: seq<bool>)
    ensures Walk(inside, a + b) == Walk(inside, a) + Walk(Ends(inside, a), b)
    ensures Ends(inside, a + b) == Ends(Ends(inside, a), b)
    decreases |a|
  {
    if a == [] {
      assert a + b == b;
    } else {
      assert (a + b)[0] == a[0] && (a + b)[1..] == a[1..] + b;
      WalkJoin(a[0], a[1..], b);
    }
  }

  // One object against the zones: it is then where it was seen, and moved if that is new.
  lemma {:induction false} ItemWalks(presence: map<Key, bool>, item: Item, zones: seq<ZoneId>, key: Key)
    ensures var (p, events) := ItemEvents(presence, item, zones);
      var seen := key.track == item.track && key.zone in zones;
      var sightings := if seen then [key.zone in item.inside] else [];
      && Was(p, key) == Ends(Was(presence, key), sightings)
      && MovesFor(events, key) == Walk(Was(presence, key), sightings)
      && (!seen ==> (key in p <==> key in presence))
    decreases |zones|
  {
    if zones != [] {
      var first := Key(zones[0], item.track);
      var p := presence[first := zones[0] in item.inside];
      ItemWalks(p, item, zones[1..], key);
      assert zones == [zones[0]] + zones[1..];
      var events := ItemEvents(presence, item, zones).1;
      var later := ItemEvents(p, item, zones[1..]).1;
      if events != later {
        assert events[1..] == later;
      }
    }
  }

  lemma {:induction false} FrameWalks(a: Analyzer, items: seq<Item>, zones: seq<ZoneId>, key: Key)
    ensures var (a', events) := FrameEvents(a, items, zones);
      var sightings := if key.zone in zones then Sightings(items, key) else [];
      && Was(a'.presence, key) == Ends(Was(a.presence, key), sightings)
      && MovesFor(events, key) == Walk(Was(a.presence, key), sightings)
    decreases |items|
  {
    if items != [] {
      var (p, now) := ItemEvents(a.presence, items[0], zones);
      var a1 := a.(presence := p, lastSeen := a.lastSeen[items[0].track := a.frame]);
      ItemWalks(a.presence, items[0], zones, key);
      FrameWalks(a1, items[1..], zones, key);
      assert items == [items[0]] + items[1..];
      SightingsJoin([items[0]], items[1..], key);
      assert [items[0]][..0] == [] && Sightings([], key) == [];
      MovesJoin(now, FrameEvents(a1, items[1..], zones).1, key);
      WalkJoin(Was(a.presence, key), Sightings([items[0]], key), Sightings(items[1..], key));
    }
  }

  predicate IsSeen(items: seq<Item>, t: TrackId) { exists i :: 0 <= i < |items| && items[i].track == t }

  lemma {:induction false} SeenNow(a: Analyzer, items: seq<Item>, zones: seq<ZoneId>, t: TrackId)
    ensures var a' := FrameEvents(a, items, zones).0;
      && a'.frame == a.frame && (t in a'.lastSeen <==> IsSeen(items, t) || t in a.lastSeen)
      && (t in a'.lastSeen ==> a'.lastSeen[t] == if IsSeen(items, t) then a.frame else a.lastSeen[t])
    decreases |items|
  {
    if items != [] {
      var p := ItemEvents(a.presence, items[0], zones).0;
      SeenNow(a.(presence := p, lastSeen := a.lastSeen[items[0].track := a.frame]), items[1..], zones, t);
      if i :| 0 <= i < |items| && items[i].track == t { assert i > 0 ==> items[1..][i - 1].track == t; }
      if i :| 0 <= i < |items| - 1 && items[1..][i].track == t { assert items[i + 1].track == t; }
    } else {
      assert !IsSeen(items, t);
    }
  }

  lemma {:induction false} SightedIffSeen(items: seq<Item>, key: Key)
    ensures Sightings(items, key) != [] <==> IsSeen(items, key.track)
    decreases |items|
  {
    if items != [] {
      var n := |items| - 1;
      SightedIffSeen(items[..n], key);
      if i :| 0 <= i < |items| && items[i].track == key.track { assert i < n ==> items[..n][i].track == key.track; }
      if i :| 0 <= i < n && items[..n][i].track == key.track { assert items[i].track == key.track; }
    }
  }

  // A track stays if the frame has it or it was seen within the limit.
  predicate Stays(a: Analyzer, items: seq<Item>, limit: nat, t: TrackId) {
    IsSeen(items, t) || (t in a.lastSeen && a.frame + 1 - a.lastSeen[t] <= limit)
  }

  // What one frame does to a zone and track: its moves are those of the walk through the track's
  // sightings, and a track that stays is then where it was last seen.
  predicate FrameEffect(a: Analyzer, a': Analyzer, events: seq<ZoneEvent>, items: seq<Item>, zones: seq<ZoneId>,
                        limit: nat, key: Key) {
    var sightings := if key.zone in zones then Sightings(items, key) else [];
    && a'.frame == a.frame + 1
    && MovesFor(events, key) == Walk(Was(a.presence, key), sightings)
    && (key.track in a'.lastSeen <==> Stays(a, items, limit, key.track))
    && (if Stays(a, items, limit, key.track) then Was(a'.presence, key) == Ends(Was(a.presence, key), sightings)
        else key.track in a.lastSeen ==> !Was(a'.presence, key))
    && (key.track in a'.lastSeen ==>
          a'.lastSeen[key.track] == if IsSeen(items, key.track) then a'.frame else a.lastSeen[key.track])
  }

  lemma FrameTakesEffect(a: Analyzer, items: seq<Item>, zones: seq<ZoneId>, limit: nat, key: Key)
    ensures var (a', events) := Analysed(a, items, zones, limit); FrameEffect(a, a', events, items, zones, limit, key)
    ensures key.track !in a.lastSeen && !IsSeen(items, key.track) ==>
      Was(Analysed(a, items, zones, limit).0.presence, key) == Was(a.presence, key)
  {
    FrameWalks(a.(frame := a.frame + 1), items, zones, key);
    SeenNow(a.(frame := a.frame + 1), items, zones, key.track);
    SightedIffSeen(items, key);
    hide FrameEvents, Sightings, Walk, MovesFor, IsSeen, Ends;
  }

  lemma FramesTakeEffect(a: Analyzer, a': Analyzer, events: seq<ZoneEvent>, items: seq<Item>, zones: seq<ZoneId>,
                         limit: nat)
    requires (a', events) == Analysed(a, items, zones, limit)
    ensures forall key :: FrameEffect(a, a', events, items, zones, limit, key)
  {
    hide FrameEffect, Analysed;
    forall key: Key ensures FrameEffect(a, a', events, items, zones, limit, key) {
      FrameTakesEffect(a, items, zones, limit, key);
    }
  }

  // Every sighting of a run, in order.
  function AllSightings(frames: seq<seq<Item>>, key: Key): seq<bool>
    decreases |frames|
  {
    if frames == [] then [] else Sightings(frames[0], key) + AllSightings(frames[1..], key)
  }

  // After these sightings a retained track is where it was last seen, and no other track is anywhere.
  predicate WhereSeen(a: Analyzer, zones: seq<ZoneId>, sightings: seq<bool>, key: Key) {
    if key.track in a.lastSeen
    then key.zone in zones ==> sightings != [] && Was(a.presence, key) == sightings[|sightings| - 1]
    else !Was(a.presence, key)
  }

  lemma StepWhereSeen(a: Analyzer, items: seq<Item>, zones: seq<ZoneId>, limit: nat, sightings: seq<bool>, key: Key)
    requires WhereSeen(a, zones, sightings, key)
    ensures WhereSeen(Analysed(a, items, zones, limit).0, zones, sightings + Sightings(items, key), key)
  {
    FrameTakesEffect(a, items, zones, limit, key);
    SightedIffSeen(items, key);
    hide Analysed, Sightings, IsSeen, MovesFor, Walk;
    var now := Sightings(items, key);
    if now == [] {
      assert sightings + now == sightings;
    } else {
      assert (sightings + now)[|sightings + now| - 1] == now[|now| - 1];
    }
  }

  lemma {:induction false} RunWhereSeen(w: World, frames: seq<seq<Item>>, zones: seq<ZoneId>, limit: nat,
                                        sightings: seq<bool>, key: Key)
    requires WhereSeen(w.a, zones, sightings, key)
    ensures WhereSeen(Exec(w, frames, zones, limit).a, zones, sightings + AllSightings(frames, key), key)
    decreases |frames|
  {
    hide Analysed, Follow, Sightings, WhereSeen;
    if frames == [] {
      assert sightings + [] == sightings;
    } else {
      var now := Sightings(frames[0], key);
      var w' := World(Analysed(w.a, frames[0], zones, limit).0, Follow(w.a, w.h, frames[0], zones, limit));
      StepWhereSeen(w.a, frames[0], zones, limit, sightings, key);
      RunWhereSeen(w', frames[1..], zones, limit, sightings + now, key);
      assert (sightings + now) + AllSightings(frames[1..], key)
          == sightings + (now + AllSightings(frames[1..], key));
    }
  }

  /** Over any run from a new analyzer: a retained track's last move in a zone is an ENTER if and
      only if its last detection was inside that zone. */
  lemma LastMoveIsLastSighting(frames: seq<seq<Item>>, zones: seq<ZoneId>, limit: nat, key: Key)
    requires key.zone in zones
    ensures var w := Exec(World(Initial(), History(map[], [])), frames, zones, limit);
      var moves, sightings := MovesOf(w.h, key), AllSightings(frames, key);
      key.track in w.a.lastSeen ==>
        && sightings != []
        && (moves != [] && moves[|moves| - 1] == Enter <==> sightings[|sightings| - 1])
  {
    var start := World(Initial(), History(map[], []));
    AlternateFromStart(frames, zones, limit, key);
    RunWhereSeen(start, frames, zones, limit, [], key);
    assert [] + AllSightings(frames, key) == AllSightings(frames, key);
    hide Exec, AllSightings;
  }

  // ---------------------------------------------------------------------- the object

  class PolygonAnalyzer {
    const zones: seq<ZoneId>
    const staleAfterFrames: nat
    var presence: map<Key, bool>
    var lastSeen: map<TrackId, nat>
    var frameIndex: nat

    function View(): Analyzer
      reads this
    {
      Analyzer(presence, lastSeen, frameIndex)
    }

    constructor (zones: seq<ZoneId>, staleAfterFrames: nat)
      ensures this.zones == zones && this.staleAfterFrames == staleAfterFrames && View() == Initial()
    {
      this.zones, this.staleAfterFrames := zones, staleAfterFrames;
      presence, lastSeen, frameIndex := map[], map[], 0;
    }

    // The inner loop, over the zones.
    method AnalyzeItem(item: Item) returns (events: seq<ZoneEvent>)
      modifies this`presence
      ensures (presence, events) == ItemEvents(old(presence), item, zones)
    {
      events := [];
      ghost var start := presence;
      var i := 0;
      while i < |zones|
        invariant 0 <= i <= |zones|
        invariant ItemEvents(start, item, zones).0 == ItemEvents(presence, item, zones[i..]).0
        invariant ItemEvents(start, item, zones).1 == events + ItemEvents(presence, item, zones[i..]).1
      {
        assert zones[i..][0] == zones[i] && zones[i..][1..] == zones[i + 1..];
        var key := Key(zones[i], item.track);
        var inside := zones[i] in item.inside;
        if inside != Was(presence, key) {
          events := events + [ZoneEvent(key, if inside then Enter else Exit)];
        }
        presence := presence[key := inside];
        i := i + 1;
      }
      assert zones[i..] == [] && events + [] == events;
    }

    method Analyze(tracked: seq<Item>) returns (events: seq<ZoneEvent>)
      modifies this
      ensures (View(), events) == Analysed(old(View()), tracked, zones, staleAfterFrames)
      ensures forall key :: FrameEffect(old(View()), View(), events, tracked, zones, staleAfterFrames, key)
    {
      ghost var (after, found) := Analysed(View(), tracked, zones, staleAfterFrames);
      FramesTakeEffect(View(), after, found, tracked, zones, staleAfterFrames);
      hide FrameEffect;
      frameIndex := frameIndex + 1;
      events := [];
      ghost var start := View();
      var i := 0;
      while i < |tracked|
        invariant 0 <= i <= |tracked|
        invariant FrameEvents(start, tracked, zones).0 == FrameEvents(View(), tracked[i..], zones).0
        invariant FrameEvents(start, tracked, zones).1 == events + FrameEvents(View(), tracked[i..], zones).1
      {
        assert tracked[i..][0] == tracked[i] && tracked[i..][1..] == tracked[i + 1..];
        lastSeen := lastSeen[tracked[i].track := frameIndex];
        var found := AnalyzeItem(tracked[i]);
        events := events + found;
        i := i + 1;
      }
      assert tracked[i..] == [] && events + [] == events;
      DiscardStale();
    }

    method DiscardStale()
      modifies this`presence, this`lastSeen
      ensures View() == Discarded(old(View()), staleAfterFrames)
      ensures forall t :: t in lastSeen <==> t in old(lastSeen) && frameIndex - old(lastSeen)[t] <= staleAfterFrames
      ensures forall t :: t in lastSeen ==> lastSeen[t] == old(lastSeen)[t]
      ensures forall k :: k in presence <==> k in old(presence) && (k.track in old(lastSeen) ==> k.track in lastSeen)
      ensures forall k :: k in presence ==> presence[k] == old(presence)[k]
    {
      var stale := set t | t in lastSeen && frameIndex - lastSeen[t] > staleAfterFrames;
      lastSeen := lastSeen - stale;
      if stale != {} {
        presence := map k | k in presence && k.track !in stale :: presence[k];
      }
    }
  }
}
