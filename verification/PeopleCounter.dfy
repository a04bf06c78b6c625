/**
 The directional line-crossing counter.  A detection comes with its signed
 distance from the counting line; the geometry is an input.
 */
module PeopleCounter {
  import opened Prelude

  type TrackId = int

  datatype Direction = In | Out
  datatype Seen = Seen(track: TrackId, person: bool, distance: real)
  datatype Crossing = Crossing(track: TrackId, direction: Direction)
  datatype Track = Track(side: int, lastSeen: nat)
  datatype Counter = Counter(countIn: nat, countOut: nat, tracks: map<TrackId, Track>, frame: nat)

  function Initial(): Counter { Counter(0, 0, map[], 0) }

  // ------------------------------------------------------------------------- update

  // Which side of the line, if clear of the hysteresis band.
  function Side(distance: real, hysteresis: real): Option<int> {
    if -hysteresis <= distance <= hysteresis then None else Some(if distance > 0.0 then 1 else -1)
  }

  // One detection of a frame: the new state and the crossing it makes.
  function Observed(c: Counter, hysteresis: real, s: Seen): (Counter, Option<Crossing>) {
    if !s.person then (c, None)
    else
      var known := s.track in c.tracks;
      match Side(s.distance, hysteresis)
      case None =>
        (if known then c.(tracks := c.tracks[s.track := c.tracks[s.track].(lastSeen := c.frame)]) else c, None)
      case Some(side) =>
        var c' := c.(tracks := c.tracks[s.track := Track(side, c.frame)]);
        if !known || c.tracks[s.track].side == side then (c', None)
        else if c.tracks[s.track].side < side then (c'.(countIn := c.countIn + 1), Some(Crossing(s.track, In)))
        else (c'.(countOut := c.countOut + 1), Some(Crossing(s.track, Out)))
  }

  function AllObserved(c: Counter, hysteresis: real, items: seq<Seen>): (Counter, seq<Crossing>)
    decreases |items|
  {
    if items == [] then (c, [])
    else
      var (c1, event) := Observed(c, hysteresis, items[0]);
      var (c2, events) := AllObserved(c1, hysteresis, items[1..]);
      (c2, if event.Some? then [event.value] + events else events)
  }

  // cleanup: without an active set the tracks unseen for too long, with one every inactive track
  predicate IsStale(c: Counter, limit: nat, active: Option<set<TrackId>>, t: TrackId)
    requires t in c.tracks
  {
    if active.Some? then t !in active.value else c.frame - c.tracks[t].lastSeen > limit
  }

  function Kept(c: Counter, limit: nat, active: Option<set<TrackId>>): set<TrackId> {
    set t | t in c.tracks && !IsStale(c, limit, active, t)
  }

  function Cleaned(c: Counter, stale: nat, active: Option<set<TrackId>>): Counter {
    c.(tracks := map t | t in Kept(c, stale, active) :: c.tracks[t])
  }

  datatype Config = Config(line: bool, hysteresis: real, stale: nat)

  function Updated(c: Counter, g: Config, items: seq<Seen>): (Counter, seq<Crossing>) {
    var c1 := c.(frame := c.frame + 1);
    if !g.line then (c1, [])
    else
      var (c2, events) := AllObserved(c1, g.hysteresis, items);
      (Cleaned(c2, g.stale, None), events)
  }

  // ------------------------------------------------------------------------ history

  // One stay of a track in the counter: from its first clear side until it is dropped.
  datatype Episode = Episode(track: TrackId, first: int, current: int, moves: seq<Direction>)

  // All episodes since the last reset, and which of them each retained track is in.
  datatype History = History(episodes: seq<Episode>, open: map<TrackId, nat>)

  // The counter, its history, and every crossing it returned since the last reset, in order.
  datatype World = World(c: Counter, h: History, emitted: seq<Crossing>)

  function Start(): World { World(Initial(), History([], map[]), []) }

  function Recorded(w: World, hysteresis: real, s: Seen): History {
    var (c', event) := Observed(w.c, hysteresis, s);
    var h := w.h;
    if s.track in c'.tracks && s.track !in w.c.tracks then
      var side := c'.tracks[s.track].side;
      History(h.episodes + [Episode(s.track, side, side, [])], h.open[s.track := |h.episodes|])
    else if event.Some? && s.track in h.open && h.open[s.track] < |h.episodes| && s.track in c'.tracks then
      var i := h.open[s.track];
      var e := h.episodes[i];
      h.(episodes := h.episodes[i := e.(current := c'.tracks[s.track].side,
                                        moves := e.moves + [event.value.direction])])
    else h
  }

  function After(w: World, hysteresis: real, s: Seen): World {
    var (c', event) := Observed(w.c, hysteresis, s);
    World(c', Recorded(w, hysteresis, s), if event.Some? then w.emitted + [event.value] else w.emitted)
  }

  function AllRecorded(w: World, hysteresis: real, items: seq<Seen>): World
    decreases |items|
  {
    if items == [] then w else AllRecorded(After(w, hysteresis, items[0]), hysteresis, items[1..])
  }

  function Closed(w: World, stale: nat, active: Option<set<TrackId>>): World {
    var c' := Cleaned(w.c, stale, active);
    w.(c := c', h := w.h.(open := map t | t in w.h.open && t in c'.tracks :: w.h.open[t]))
  }

  datatype Op = Frame(items: seq<Seen>) | Cleanup(active: Option<set<TrackId>>) | Reset

  function Next(w: World, g: Config, op: Op): World {
    match op
    case Frame(items) =>
      var w1 := w.(c := w.c.(frame := w.c.frame + 1));
      if !g.line then w1 else Closed(AllRecorded(w1, g.hysteresis, items), g.stale, None)
    case Cleanup(active) => Closed(w, g.stale, active)
    case Reset => Start()
  }

  function Exec(w: World, g: Config, ops: seq<Op>): World
    decreases |ops|
  {
    if ops == [] then w else Exec(Next(w, g, ops[0]), g, ops[1..])
  }

  // The history follows the counter itself and logs exactly the crossings it returns.
  lemma {:induction false} HistoryFollows(w: World, hysteresis: real, items: seq<Seen>)
    ensures var w' := AllRecorded(w, hysteresis, items); var (c', events) := AllObserved(w.c, hysteresis, items);
      w'.c == c' && w'.emitted == w.emitted + events
    decreases |items|
  {
    if items != [] { HistoryFollows(After(w, hysteresis, items[0]), hysteresis, items[1..]); }
  }

  // One call of the counter on its own: the counter after it and the crossings it returns.
  function Operated(c: Counter, g: Config, op: Op): (Counter, seq<Crossing>) {
    match op
    case Frame(items) => Updated(c, g, items)
    case Cleanup(active) => (Cleaned(c, g.stale, active), [])
    case Reset => (Initial(), [])
  }

  // A run of calls: the counter after it and the crossings returned since the last reset.
  function Ran(c: Counter, g: Config, emitted: seq<Crossing>, ops: seq<Op>): (Counter, seq<Crossing>)
    decreases |ops|
  {
    if ops == [] then (c, emitted)
    else
      var (c', events) := Operated(c, g, ops[0]);
      Ran(c', g, (if ops[0].Reset? then [] else emitted) + events, ops[1..])
  }

  lemma StepFollows(w: World, g: Config, op: Op)
    ensures var w' := Next(w, g, op); var (c', events) := Operated(w.c, g, op);
      w'.c == c' && w'.emitted == (if op.Reset? then [] else w.emitted) + events
  {
    if op.Frame? { HistoryFollows(w.(c := w.c.(frame := w.c.frame + 1)), g.hysteresis, op.items); }
  }

  /** Over any run of frames, cleanups and resets the counter with its history is the counter
      on its own, and its log holds exactly the crossings returned since the last reset. */
  lemma {:induction false} RunFollows(w: World, g: Config, ops: seq<Op>)
    ensures (Exec(w, g, ops).c, Exec(w, g, ops).emitted) == Ran(w.c, g, w.emitted, ops)
    decreases |ops|
  {
    if ops != [] {
      StepFollows(w, g, ops[0]);
      hide Next, Operated;
      RunFollows(Next(w, g, ops[0]), g, ops[1..]);
    }
  }

  // ---------------------------------------------------------------------- invariant

  function Net(e: Episode): int { (e.current - e.first) / 2 }

  function SumNet(s: seq<Episode>): int {
    if s == [] then 0 else SumNet(s[..|s| - 1]) + Net(s[|s| - 1])
  }

  // Crossings alternate, beginning with the one that leaves the first side.
  predicate EpisodeOk(e: Episode) {
    && (e.first == 1 || e.first == -1)
    && e.current == (if |e.moves| % 2 == 0 then e.first else -e.first)
    && if e.first == -1 then Alternates(e.moves, In, Out) else Alternates(e.moves, Out, In)
  }

  predicate TrackOk(w: World, t: TrackId) {
    && t in w.c.tracks && t in w.h.open && w.h.open[t] < |w.h.episodes|
    && w.h.episodes[w.h.open[t]].track == t
    && w.h.episodes[w.h.open[t]].current == w.c.tracks[t].side
  }

  predicate Inv(w: World) {
    && w.h.open.Keys == w.c.tracks.Keys
    && (forall t {:trigger TrackOk(w, t)} :: t in w.c.tracks ==> TrackOk(w, t))
    && (forall i :: 0 <= i < |w.h.episodes| ==> EpisodeOk(w.h.episodes[i]))
    && w.c.countIn - w.c.countOut == SumNet(w.h.episodes)
  }

  lemma {:induction false} SumUpdate(s: seq<Episode>, i: nat, e: Episode)
    requires i < |s|
    ensures SumNet(s[i := e]) == SumNet(s) - Net(s[i]) + Net(e)
    decreases |s|
  {
    var n := |s| - 1;
    if i == n {
      assert s[i := e][..n] == s[..n];
    } else {
      SumUpdate(s[..n], i, e);
      assert s[i := e][..n] == s[..n][i := e];
    }
  }

  lemma SumExtend(s: seq<Episode>, e: Episode)
    ensures SumNet(s + [e]) == SumNet(s) + Net(e)
  {
    assert (s + [e])[..|s|] == s;
  }

  // A new track opens an episode at its side.
  function Opened(w: World, t: TrackId, side: int): World {
    w.(c := w.c.(tracks := w.c.tracks[t := Track(side, w.c.frame)]),
       h := History(w.h.episodes + [Episode(t, side, side, [])], w.h.open[t := |w.h.episodes|]))
  }

  lemma OpeningKeepsInv(w: World, t: TrackId, side: int)
    requires Inv(w) && t !in w.c.tracks && (side == 1 || side == -1)
    ensures Inv(Opened(w, t, side))
  {
    var w' := Opened(w, t, side);
    SumExtend(w.h.episodes, Episode(t, side, side, []));
    forall u | u in w'.c.tracks ensures TrackOk(w', u) {
      if u != t { assert TrackOk(w, u); }
    }
  }

  // The episode of a track that crosses moves to the other side.
  function Moved(e: Episode): Episode {
    e.(current := -e.current, moves := e.moves + [if e.current == -1 then In else Out])
  }

  lemma MovedIsOk(e: Episode)
    requires EpisodeOk(e)
    ensures EpisodeOk(Moved(e)) && Net(Moved(e)) == Net(e) + (if e.current == -1 then 1 else -1)
  {
  }

  // Track t crosses to the other side; c' is the counter after it.
  function Crossed(w: World, t: TrackId, c': Counter): World
    requires t in w.c.tracks && t in w.h.open && w.h.open[t] < |w.h.episodes|
  {
    var i := w.h.open[t];
    World(c', w.h.(episodes := w.h.episodes[i := Moved(w.h.episodes[i])]),
          w.emitted + [Crossing(t, if w.c.tracks[t].side == -1 then In else Out)])
  }

  lemma MovingKeepsInv(w: World, t: TrackId, c': Counter)
    requires Inv(w) && t in w.c.tracks && t in w.h.open && w.h.open[t] < |w.h.episodes|
    requires c'.tracks == w.c.tracks[t := Track(-w.c.tracks[t].side, w.c.frame)]
    requires c'.countIn - c'.countOut == w.c.countIn - w.c.countOut + (if w.c.tracks[t].side == -1 then 1 else -1)
    ensures Inv(Crossed(w, t, c'))
  {
    var i := w.h.open[t];
    var e := Moved(w.h.episodes[i]);
    var w' := Crossed(w, t, c');
    assert TrackOk(w, t);
    MovedIsOk(w.h.episodes[i]);
    SumUpdate(w.h.episodes, i, e);
    forall u | u in w'.c.tracks ensures TrackOk(w', u) { assert TrackOk(w, u); }
  }

  // Only when the track was last seen changes.
  lemma SeeingKeepsInv(w: World, t: TrackId, seen: nat)
    requires Inv(w) && t in w.c.tracks
    ensures Inv(w.(c := w.c.(tracks := w.c.tracks[t := w.c.tracks[t].(lastSeen := seen)])))
  {
    var w' := w.(c := w.c.(tracks := w.c.tracks[t := w.c.tracks[t].(lastSeen := seen)]));
    forall u | u in w'.c.tracks ensures TrackOk(w', u) { assert TrackOk(w, u); }
  }

  lemma SideOfTrack(w: World, t: TrackId)
    requires Inv(w) && t in w.c.tracks
    ensures TrackOk(w, t) && (w.c.tracks[t].side == 1 || w.c.tracks[t].side == -1)
  {
    assert TrackOk(w, t);
    assert EpisodeOk(w.h.episodes[w.h.open[t]]);
  }

  lemma ObservedKeepsInv(w: World, hysteresis: real, s: Seen)
    requires Inv(w) && hysteresis >= 0.0
    ensures Inv(After(w, hysteresis, s))
  {
    var c' := Observed(w.c, hysteresis, s).0;
    var t := s.track;
    AfterCases(w, hysteresis, s);
    if t in w.c.tracks { SideOfTrack(w, t); }
    hide Inv, After;
    if t in w.c.tracks && s.person && Side(s.distance, hysteresis) == Some(-w.c.tracks[t].side) {
      MovingKeepsInv(w, t, c');
    } else if t in w.c.tracks && s.person {
      SeeingKeepsInv(w, t, w.c.frame);
    } else if t in c'.tracks && t !in w.c.tracks {
      OpeningKeepsInv(w, t, c'.tracks[t].side);
    }
  }

  // What one detection can do: open an episode, cross, be seen again, or nothing.
  lemma AfterCases(w: World, hysteresis: real, s: Seen)
    requires Inv(w) && hysteresis >= 0.0
    ensures var w', t := After(w, hysteresis, s), s.track;
      if t in w.c.tracks && s.person && Side(s.distance, hysteresis) == Some(-w.c.tracks[t].side) then
        TrackOk(w, t) && w' == Crossed(w, t, w'.c)
      else if t in w.c.tracks && s.person then
        w' == w.(c := w.c.(tracks := w.c.tracks[t := w.c.tracks[t].(lastSeen := w.c.frame)]))
      else if t !in w.c.tracks && t in w'.c.tracks then
        w' == Opened(w, t, w'.c.tracks[t].side)
      else w' == w
  {
    if s.track in w.c.tracks { SideOfTrack(w, s.track); }
    hide Inv;
  }

  lemma {:induction false} AllKeepInv(w: World, hysteresis: real, items: seq<Seen>)
    requires Inv(w) && hysteresis >= 0.0
    ensures Inv(AllRecorded(w, hysteresis, items))
    decreases |items|
  {
    if items != [] {
      ObservedKeepsInv(w, hysteresis, items[0]);
      AllKeepInv(After(w, hysteresis, items[0]), hysteresis, items[1..]);
    }
  }

  lemma ClosedKeepsInv(w: World, stale: nat, active: Option<set<TrackId>>)
    requires Inv(w)
    ensures Inv(Closed(w, stale, active))
  {
    var w' := Closed(w, stale, active);
    forall t | t in w'.c.tracks ensures TrackOk(w', t) { assert TrackOk(w, t); }
  }

  lemma StepKeepsInv(w: World, g: Config, op: Op)
    requires Inv(w) && g.hysteresis >= 0.0
    ensures Inv(Next(w, g, op))
  {
    match op {
      case Frame(items) =>
        var w1 := w.(c := w.c.(frame := w.c.frame + 1));
        forall t | t in w1.c.tracks ensures TrackOk(w1, t) { assert TrackOk(w, t); }
        AllKeepInv(w1, g.hysteresis, items);
        ClosedKeepsInv(AllRecorded(w1, g.hysteresis, items), g.stale, None);
      case Cleanup(active) => ClosedKeepsInv(w, g.stale, active);
      case Reset =>
    }
  }

  // ---------------------------------------------------------- recorded moves are the crossings

  // The moves of all episodes of a track, in order.
  function MovesOf(s: seq<Episode>, t: TrackId): seq<Direction> {
    if s == [] then []
    else MovesOf(s[..|s| - 1], t) + if s[|s| - 1].track == t then s[|s| - 1].moves else []
  }

  // The directions of the crossings of a track, in order.
  function Directions(s: seq<Crossing>, t: TrackId): seq<Direction> {
    if s == [] then []
    else Directions(s[..|s| - 1], t) + if s[|s| - 1].track == t then [s[|s| - 1].direction] else []
  }

  function CountOf(s: seq<Crossing>, d: Direction): nat {
    if s == [] then 0 else CountOf(s[..|s| - 1], d) + if s[|s| - 1].direction == d then 1 else 0
  }

  // Episode i is the last of track t.
  predicate LastOf(s: seq<Episode>, t: TrackId, i: nat) {
    i < |s| && s[i].track == t && forall j :: i < j < |s| ==> s[j].track != t
  }

  ghost predicate EmittedOk(w: World) {
    && w.c.countIn == CountOf(w.emitted, In) && w.c.countOut == CountOf(w.emitted, Out)
    && (forall t {:trigger MovesOf(w.h.episodes, t)} :: MovesOf(w.h.episodes, t) == Directions(w.emitted, t))
    && (forall t {:trigger w.h.open[t]} :: t in w.h.open ==> LastOf(w.h.episodes, t, w.h.open[t]))
  }

  lemma MovesExtend(s: seq<Episode>, e: Episode, t: TrackId)
    requires e.moves == []
    ensures MovesOf(s + [e], t) == MovesOf(s, t)
  {
    assert (s + [e])[..|s|] == s;
  }

  lemma EmittedExtend(s: seq<Crossing>, e: Crossing, t: TrackId)
    ensures Directions(s + [e], t) == Directions(s, t) + (if e.track == t then [e.direction] else [])
    ensures forall d :: CountOf(s + [e], d) == CountOf(s, d) + if e.direction == d then 1 else 0
  {
    assert (s + [e])[..|s|] == s;
  }

  // Appending a move to the last episode of its track appends it to the moves of that track alone.
  lemma {:induction false} MovesUpdate(s: seq<Episode>, i: nat, e: Episode, d: Direction, t: TrackId)
    requires i < |s| && LastOf(s, e.track, i) && e.moves == s[i].moves + [d]
    ensures MovesOf(s[i := e], t) == MovesOf(s, t) + if t == e.track then [d] else []
    decreases |s|
  {
    var n := |s| - 1;
    if i == n {
      assert s[i := e][..n] == s[..n];
      assert MovesOf(s[..n], t) + (s[i].moves + [d]) == (MovesOf(s[..n], t) + s[i].moves) + [d];
    } else {
      assert s[n].track != e.track;
      MovesUpdate(s[..n], i, e, d, t);
      assert s[i := e][..n] == s[..n][i := e];
      if t != e.track { assert s[n] == s[i := e][n]; }
    }
  }

  lemma CrossedKeepsEmitted(w: World, t: TrackId, c': Counter)
    requires EmittedOk(w) && TrackOk(w, t)
    requires var d := if w.c.tracks[t].side == -1 then In else Out;
      && c'.countIn == w.c.countIn + (if d == In then 1 else 0)
      && c'.countOut == w.c.countOut + (if d == Out then 1 else 0)
    ensures EmittedOk(Crossed(w, t, c'))
  {
    var w', i := Crossed(w, t, c'), w.h.open[t];
    var e, x := w'.h.episodes[i], w'.emitted[|w.emitted|];
    assert LastOf(w.h.episodes, t, i);
    forall u ensures MovesOf(w'.h.episodes, u) == Directions(w'.emitted, u) {
      MovesUpdate(w.h.episodes, i, e, x.direction, u);
      EmittedExtend(w.emitted, x, u);
    }
    EmittedExtend(w.emitted, x, t);
    forall u | u in w'.h.open ensures LastOf(w'.h.episodes, u, w'.h.open[u]) {
      assert LastOf(w.h.episodes, u, w.h.open[u]);
    }
  }

  lemma OpenedKeepsEmitted(w: World, t: TrackId, side: int)
    requires EmittedOk(w) && t !in w.h.open
    ensures EmittedOk(Opened(w, t, side))
  {
    var w' := Opened(w, t, side);
    forall u ensures MovesOf(w'.h.episodes, u) == Directions(w'.emitted, u) {
      MovesExtend(w.h.episodes, Episode(t, side, side, []), u);
    }
    forall u | u in w'.h.open ensures LastOf(w'.h.episodes, u, w'.h.open[u]) {
      if u != t { assert LastOf(w.h.episodes, u, w.h.open[u]); }
    }
  }

  lemma ObservedKeepsEmitted(w: World, hysteresis: real, s: Seen)
    requires Inv(w) && EmittedOk(w) && hysteresis >= 0.0
    ensures EmittedOk(After(w, hysteresis, s))
  {
    var w', t := After(w, hysteresis, s), s.track;
    AfterCases(w, hysteresis, s);
    if t in w.c.tracks { SideOfTrack(w, t); }
    hide EmittedOk;
    if t in w.c.tracks && s.person && Side(s.distance, hysteresis) == Some(-w.c.tracks[t].side) {
      CrossedKeepsEmitted(w, t, w'.c);
    } else if t !in w.c.tracks && t in w'.c.tracks {
      OpenedKeepsEmitted(w, t, w'.c.tracks[t].side);
    } else {
      SameEmitted(w, w');
    }
  }

  lemma SameEmitted(w: World, w': World)
    requires EmittedOk(w) && w'.h.episodes == w.h.episodes && w'.emitted == w.emitted
    requires w'.c.countIn == w.c.countIn && w'.c.countOut == w.c.countOut
    requires forall t :: t in w'.h.open ==> t in w.h.open && w'.h.open[t] == w.h.open[t]
    ensures EmittedOk(w')
  {
  }

  lemma {:induction false} AllKeepEmitted(w: World, hysteresis: real, items: seq<Seen>)
    requires Inv(w) && EmittedOk(w) && hysteresis >= 0.0
    ensures EmittedOk(AllRecorded(w, hysteresis, items))
    decreases |items|
  {
    if items != [] {
      ObservedKeepsInv(w, hysteresis, items[0]);
      ObservedKeepsEmitted(w, hysteresis, items[0]);
      AllKeepEmitted(After(w, hysteresis, items[0]), hysteresis, items[1..]);
    }
  }

  lemma StepKeepsEmitted(w: World, g: Config, op: Op)
    requires Inv(w) && EmittedOk(w) && g.hysteresis >= 0.0
    ensures EmittedOk(Next(w, g, op))
  {
    match op {
      case Frame(items) =>
        var w1 := w.(c := w.c.(frame := w.c.frame + 1));
        forall t | t in w1.c.tracks ensures TrackOk(w1, t) { assert TrackOk(w, t); }
        SameEmitted(w, w1);
        if g.line {
          AllKeepEmitted(w1, g.hysteresis, items);
          SameEmitted(AllRecorded(w1, g.hysteresis, items), Next(w, g, op));
        }
      case Cleanup(active) => SameEmitted(w, Next(w, g, op));
      case Reset =>
    }
    hide EmittedOk;
  }

  /** Over any run of frames, cleanups and resets: within every episode of a track
      IN and OUT alternate, and count_in - count_out is the sum over all episodes,
      dropped or retained, of half the way from the first to the current side. */
  lemma {:induction false} CountsBalance(w: World, g: Config, ops: seq<Op>)
    requires Inv(w) && g.hysteresis >= 0.0
    ensures var w' := Exec(w, g, ops);
      && w'.c.countIn - w'.c.countOut == SumNet(w'.h.episodes)
      && (forall i :: 0 <= i < |w'.h.episodes| ==> EpisodeOk(w'.h.episodes[i]))
      && Inv(w')
    decreases |ops|
  {
    if ops != [] {
      StepKeepsInv(w, g, ops[0]);
      CountsBalance(Next(w, g, ops[0]), g, ops[1..]);
    }
  }

  lemma {:induction false} RunKeepsEmitted(w: World, g: Config, ops: seq<Op>)
    requires Inv(w) && EmittedOk(w) && g.hysteresis >= 0.0
    ensures EmittedOk(Exec(w, g, ops))
    decreases |ops|
  {
    if ops != [] {
      StepKeepsInv(w, g, ops[0]);
      StepKeepsEmitted(w, g, ops[0]);
      RunKeepsEmitted(Next(w, g, ops[0]), g, ops[1..]);
    }
  }

  /** From a new counter, by the calls alone: the counts are the numbers of crossings returned
      since the last reset, the episodes of a track, one after the other, hold exactly its
      crossings in order, and in each of them the crossings alternate; so the counts balance
      over the episodes. */
  lemma CrossingsAreTheMoves(g: Config, ops: seq<Op>, t: TrackId)
    requires g.hysteresis >= 0.0
    ensures var (c, returned) := Ran(Initial(), g, [], ops); var episodes := Exec(Start(), g, ops).h.episodes;
      && c.countIn == CountOf(returned, In) && c.countOut == CountOf(returned, Out)
      && MovesOf(episodes, t) == Directions(returned, t)
      && (forall i :: 0 <= i < |episodes| ==> EpisodeOk(episodes[i]))
      && c.countIn - c.countOut == SumNet(episodes)
  {
    RunFollows(Start(), g, ops);
    CountsBalance(Start(), g, ops);
    RunKeepsEmitted(Start(), g, ops);
    hide Exec, Ran;
  }

  // -------------------------------------------------- crossings are walks over the line

  predicate IsClear(distance: real, hysteresis: real) { distance < -hysteresis || hysteresis < distance }

  // Where each track was last seen clear of the line, for the tracks in the counter.
  predicate Knows(c: Counter, known: map<TrackId, real>, hysteresis: real) {
    && known.Keys == c.tracks.Keys
    && forall t :: t in known ==>
         IsClear(known[t], hysteresis) && c.tracks[t].side == if 0.0 < known[t] then 1 else -1
  }

  // A person seen clear of the line walked over it if it was last seen clear on the other side:
  // IN from the negative side to the positive, OUT the other way.
  function Walked(known: map<TrackId, real>, hysteresis: real, s: Seen): seq<Crossing> {
    if !s.person || s.track !in known then []
    else if known[s.track] < 0.0 && hysteresis < s.distance then [Crossing(s.track, In)]
    else if 0.0 < known[s.track] && s.distance < -hysteresis then [Crossing(s.track, Out)]
    else []
  }

  function Noted(known: map<TrackId, real>, hysteresis: real, s: Seen): map<TrackId, real> {
    if s.person && IsClear(s.distance, hysteresis) then known[s.track := s.distance] else known
  }

  function Walks(known: map<TrackId, real>, hysteresis: real, items: seq<Seen>): seq<Crossing>
    decreases |items|
  {
    if items == [] then []
    else Walked(known, hysteresis, items[0]) + Walks(Noted(known, hysteresis, items[0]), hysteresis, items[1..])
  }

  lemma ObservedWalks(c: Counter, known: map<TrackId, real>, hysteresis: real, s: Seen)
    requires Knows(c, known, hysteresis) && hysteresis >= 0.0
    ensures var (c', event) := Observed(c, hysteresis, s);
      && Knows(c', Noted(known, hysteresis, s), hysteresis)
      && Walked(known, hysteresis, s) == if event.Some? then [event.value] else []
  {
  }

  lemma {:induction false} AllWalk(c: Counter, known: map<TrackId, real>, hysteresis: real, items: seq<Seen>)
    returns (known': map<TrackId, real>)
    requires Knows(c, known, hysteresis) && hysteresis >= 0.0
    ensures AllObserved(c, hysteresis, items).1 == Walks(known, hysteresis, items)
    ensures Knows(AllObserved(c, hysteresis, items).0, known', hysteresis)
    decreases |items|
  {
    known' := known;
    if items != [] {
      ObservedWalks(c, known, hysteresis, items[0]);
      hide Observed, Knows, Noted, Walked;
      known' := AllWalk(Observed(c, hysteresis, items[0]).0, Noted(known, hysteresis, items[0]), hysteresis,
                        items[1..]);
    }
  }

  lemma CleanedKnows(c: Counter, known: map<TrackId, real>, hysteresis: real, limit: nat, active: Option<set<TrackId>>)
    returns (known': map<TrackId, real>)
    requires Knows(c, known, hysteresis)
    ensures Knows(Cleaned(c, limit, active), known', hysteresis)
  {
    known' := map t | t in known && t in Kept(c, limit, active) :: known[t];
    assert known'.Keys == Kept(c, limit, active) == Cleaned(c, limit, active).tracks.Keys;
  }

  // One frame returns the walks over the line, in order.
  lemma UpdateWalks(c: Counter, known: map<TrackId, real>, g: Config, items: seq<Seen>)
    returns (known': map<TrackId, real>)
    requires Knows(c, known, g.hysteresis) && g.hysteresis >= 0.0
    ensures Updated(c, g, items).1 == if g.line then Walks(known, g.hysteresis, items) else []
    ensures Knows(Updated(c, g, items).0, known', g.hysteresis)
  {
    var c1 := c.(frame := c.frame + 1);
    known' := known;
    if g.line {
      known' := AllWalk(c1, known, g.hysteresis, items);
      known' := CleanedKnows(AllObserved(c1, g.hysteresis, items).0, known', g.hysteresis, g.stale, None);
    }
    hide AllObserved, Walks;
  }

  lemma {:induction false} RunKnows(c: Counter, known: map<TrackId, real>, g: Config, emitted: seq<Crossing>,
                                    ops: seq<Op>)
    returns (known': map<TrackId, real>)
    requires Knows(c, known, g.hysteresis) && g.hysteresis >= 0.0
    ensures Knows(Ran(c, g, emitted, ops).0, known', g.hysteresis)
    decreases |ops|
  {
    known' := known;
    if ops != [] {
      match ops[0] {
        case Frame(items) => known' := UpdateWalks(c, known, g, items);
        case Cleanup(active) => known' := CleanedKnows(c, known, g.hysteresis, g.stale, active);
        case Reset => known' := map[];
      }
      hide Knows, Updated, Cleaned;
      var (c', events) := Operated(c, g, ops[0]);
      known' := RunKnows(c', known', g, (if ops[0].Reset? then [] else emitted) + events, ops[1..]);
    }
  }

  /** After any run the next frame returns exactly the walks over the line of the tracks the counter
      holds, in the order of the detections: IN from a clear negative to a clear positive distance,
      OUT the other way. */
  lemma CrossingsAreWalks(g: Config, ops: seq<Op>, items: seq<Seen>) returns (known: map<TrackId, real>)
    requires g.hysteresis >= 0.0 && g.line
    ensures var c := Ran(Initial(), g, [], ops).0;
      Knows(c, known, g.hysteresis) && Updated(c, g, items).1 == Walks(known, g.hysteresis, items)
  {
    known := RunKnows(Initial(), map[], g, [], ops);
    var later := UpdateWalks(Ran(Initial(), g, [], ops).0, known, g, items);
    hide Ran, Updated, Walks, Knows;
  }

  // ------------------------------------------------------------------------- who stays

  predicate IsPerson(items: seq<Seen>, t: TrackId) {
    exists i :: 0 <= i < |items| && items[i].track == t && items[i].person
  }

  predicate IsClearPerson(items: seq<Seen>, t: TrackId, hysteresis: real) {
    exists i :: 0 <= i < |items| && items[i].track == t && items[i].person && IsClear(items[i].distance, hysteresis)
  }

  // The first detection is a person of this track, and clear of the line.
  lemma FirstOrLater(items: seq<Seen>, t: TrackId, hysteresis: real)
    requires items != []
    ensures IsPerson(items, t) <==> (items[0].track == t && items[0].person) || IsPerson(items[1..], t)
    ensures IsClearPerson(items, t, hysteresis) <==>
      (items[0].track == t && items[0].person && IsClear(items[0].distance, hysteresis))
      || IsClearPerson(items[1..], t, hysteresis)
  {
    forall i | 0 <= i < |items| - 1 ensures items[1..][i] == items[i + 1] { }
    if i :| 0 <= i < |items| && items[i].track == t && items[i].person {
      assert i > 0 ==> items[1..][i - 1] == items[i];
    }
    if i :| 0 <= i < |items| && items[i].track == t && items[i].person && IsClear(items[i].distance, hysteresis) {
      assert i > 0 ==> items[1..][i - 1] == items[i];
    }
  }

  lemma {:induction false} TracksSeen(c: Counter, hysteresis: real, items: seq<Seen>, t: TrackId)
    requires hysteresis >= 0.0
    ensures var c' := AllObserved(c, hysteresis, items).0;
      && c'.frame == c.frame
      && (t in c'.tracks <==> t in c.tracks || IsClearPerson(items, t, hysteresis))
      && (IsClearPerson(items, t, hysteresis) ==> IsPerson(items, t))
      && (t in c'.tracks ==>
            c'.tracks[t].lastSeen == if IsPerson(items, t) then c.frame else c.tracks[t].lastSeen)
    decreases |items|
  {
    if items != [] {
      FirstOrLater(items, t, hysteresis);
      hide IsPerson, IsClearPerson;
      TracksSeen(Observed(c, hysteresis, items[0]).0, hysteresis, items[1..], t);
    }
  }

  // After a frame a track is held if it was already or is seen clear of the line, and has not been
  // unseen for too long.
  predicate FrameKeeps(c: Counter, c': Counter, g: Config, items: seq<Seen>, t: TrackId) {
    var held := t in c.tracks || IsClearPerson(items, t, g.hysteresis);
    if !g.line then c'.tracks == c.tracks
    else
      && (t in c'.tracks <==> held && (IsPerson(items, t) || c.frame + 1 - c.tracks[t].lastSeen <= g.stale))
      && (t in c'.tracks ==> c'.tracks[t].lastSeen == if IsPerson(items, t) then c'.frame else c.tracks[t].lastSeen)
  }

  lemma FrameTracks(c: Counter, c': Counter, events: seq<Crossing>, g: Config, items: seq<Seen>)
    requires (c', events) == Updated(c, g, items) && g.hysteresis >= 0.0
    ensures c'.frame == c.frame + 1 && forall t :: FrameKeeps(c, c', g, items, t)
  {
    forall t ensures FrameKeeps(c, c', g, items, t) {
      TracksSeen(c.(frame := c.frame + 1), g.hysteresis, items, t);
      hide AllObserved, IsPerson, IsClearPerson;
    }
    if g.line { TracksSeen(c.(frame := c.frame + 1), g.hysteresis, items, 0); }
    hide FrameKeeps, AllObserved;
  }

  // ---------------------------------------------------------------------- the object

  lemma KeptAreNotStale(c: Counter, limit: nat, active: Option<set<TrackId>>, stale: set<TrackId>)
    requires stale == set t | t in c.tracks && IsStale(c, limit, active, t)
    ensures stale <= c.tracks.Keys && Cleaned(c, limit, active).tracks == c.tracks - stale
    ensures |c.tracks - stale| == |c.tracks| - |stale|
  {
    assert Kept(c, limit, active) == c.tracks.Keys - stale;
    assert (c.tracks - stale).Keys == c.tracks.Keys - stale;
  }

  lemma UpdateIsRight(c: Counter, c': Counter, events: seq<Crossing>, g: Config, items: seq<Seen>)
    requires (c', events) == Updated(c, g, items) && g.hysteresis >= 0.0
    ensures c'.frame == c.frame + 1 && forall t :: FrameKeeps(c, c', g, items, t)
    ensures forall known :: Knows(c, known, g.hysteresis) ==>
      events == if g.line then Walks(known, g.hysteresis, items) else []
  {
    hide FrameKeeps, Updated, Knows, Walks;
    FrameTracks(c, c', events, g, items);
    forall known | Knows(c, known, g.hysteresis)
      ensures events == if g.line then Walks(known, g.hysteresis, items) else []
    {
      var later := UpdateWalks(c, known, g, items);
    }
  }

  class LineCounter {
    const config: Config
    var countIn: nat
    var countOut: nat
    var trackStates: map<TrackId, Track>
    var frameIndex: nat

    function View(): Counter
      reads this
    {
      Counter(countIn, countOut, trackStates, frameIndex)
    }

    constructor (config: Config)
      ensures this.config == config && View() == Initial()
    {
      this.config := config;
      countIn, countOut, trackStates, frameIndex := 0, 0, map[], 0;
    }

    method Update(items: seq<Seen>) returns (events: seq<Crossing>)
      modifies this
      ensures (View(), events) == Operated(old(View()), config, Frame(items))
      ensures config.hysteresis >= 0.0 ==>
        frameIndex == old(frameIndex) + 1 && forall t :: FrameKeeps(old(View()), View(), config, items, t)
      ensures forall known :: config.hysteresis >= 0.0 && Knows(old(View()), known, config.hysteresis) ==>
        events == if config.line then Walks(known, config.hysteresis, items) else []
    {
      ghost var (after, returned) := Updated(View(), config, items);
      if config.hysteresis >= 0.0 { UpdateIsRight(View(), after, returned, config, items); }
      hide FrameKeeps, Knows, Walks;
      frameIndex := frameIndex + 1;
      events := [];
      if !config.line { return; }
      ghost var start := View();
      var i := 0;
      while i < |items|
        invariant 0 <= i <= |items|
        invariant AllObserved(start, config.hysteresis, items).0 == AllObserved(View(), config.hysteresis, items[i..]).0
        invariant AllObserved(start, config.hysteresis, items).1
               == events + AllObserved(View(), config.hysteresis, items[i..]).1
      {
        var item := items[i];
        assert items[i..][0] == item && items[i..][1..] == items[i + 1..];
        ghost var c := View();
        var crossing := None;
        var side := Side(item.distance, config.hysteresis);
        if item.person && side.None? {
          if item.track in trackStates {
            trackStates := trackStates[item.track := trackStates[item.track].(lastSeen := frameIndex)];
          }
        } else if item.person {
          var known := item.track in trackStates;
          var before := if known then trackStates[item.track].side else side.value;
          trackStates := trackStates[item.track := Track(side.value, frameIndex)];
          if before < side.value {
            countIn := countIn + 1;
            crossing := Some(Crossing(item.track, In));
          } else if before > side.value {
            countOut := countOut + 1;
            crossing := Some(Crossing(item.track, Out));
          }
        }
        assert (View(), crossing) == Observed(c, config.hysteresis, item);
        if crossing.Some? { events := events + [crossing.value]; }
        i := i + 1;
      }
      assert items[i..] == [] && events + [] == events;
      var dropped := Cleanup(None);
    }

    method Cleanup(active: Option<set<TrackId>>) returns (dropped: nat)
      modifies this`trackStates
      ensures View() == Operated(old(View()), config, Op.Cleanup(active)).0
      ensures dropped == |old(trackStates)| - |trackStates|
      ensures active.Some? ==> forall t :: t in trackStates <==> t in old(trackStates) && t in active.value
      ensures active.None? ==> forall t :: t in trackStates <==>
        (t in old(trackStates) && frameIndex - old(trackStates)[t].lastSeen <= config.stale)
      ensures forall t :: t in trackStates ==> trackStates[t] == old(trackStates)[t]
    {
      var stale := set t | t in trackStates && IsStale(View(), config.stale, active, t);
      dropped := |stale|;
      KeptAreNotStale(View(), config.stale, active, stale);
      trackStates := trackStates - stale;
    }

    method ResetAll()
      modifies this
      ensures View() == Operated(old(View()), config, Reset).0
      ensures countIn == countOut == frameIndex == 0 && trackStates == map[]
    {
      countIn, countOut := 0, 0;
      trackStates := map[];
      frameIndex := 0;
    }
  }
}
