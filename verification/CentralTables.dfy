/**
 The central tables that receive redelivered analytics rows, and the three
 upserts that merge a row into them.  Column `synced_at` is not part of the model.
 */
module CentralTables {
  import opened Prelude

  // UUIDs; freshness is a precondition of the operations that create one.
  type Id = nat

  datatype Body = Json(text: string) | Counts(countIn: int, countOut: int)

  datatype Item =
    | Event(id: Id, camera: Id, kind: string, body: Body, image: Option<Id>, createdAt: int)
    | Alert(id: Id, camera: Id, zone: Option<string>, image: Option<Id>, confidence: Option<real>, resolved: bool,
            createdAt: int)
    | Count(id: Id, camera: Id, countIn: int, countOut: int, createdAt: int)

  datatype EventRow = EventRow(camera: Id, kind: string, body: Body, image: Option<Id>, createdAt: int)
  datatype AlertRow = AlertRow(camera: Id, zone: Option<string>, image: Option<Id>, confidence: Option<real>,
                               resolved: bool, createdAt: int)

  // va.analytics_events, which people counts share, and va.intrusion_alerts.
  datatype Tables = Tables(events: map<Id, EventRow>, alerts: map<Id, AlertRow>)

  // ------------------------------------------------------------------- one upsert

  // INSERT, or ON CONFLICT(id) DO UPDATE ... WHERE the stored camera is the same.
  function MergeEvent(row: Option<EventRow>, x: Item): EventRow
    requires !x.Alert?
  {
    match row
    case None =>
      if x.Event? then EventRow(x.camera, x.kind, x.body, x.image, x.createdAt)
      else EventRow(x.camera, "people_count", Counts(x.countIn, x.countOut), None, x.createdAt)
    case Some(r) =>
      if r.camera != x.camera then r
      else if x.Event? then r.(body := x.body, image := x.image)
      else r.(body := Counts(x.countIn, x.countOut))
  }

  function MergeAlert(row: Option<AlertRow>, x: Item): AlertRow
    requires x.Alert?
  {
    match row
    case None => AlertRow(x.camera, x.zone, x.image, x.confidence, x.resolved, x.createdAt)
    case Some(r) =>
      if r.camera != x.camera then r
      else r.(image := x.image, confidence := x.confidence, resolved := r.resolved || x.resolved)
  }

  function EventAt(t: Tables, id: Id): Option<EventRow> { if id in t.events then Some(t.events[id]) else None }

  function AlertAt(t: Tables, id: Id): Option<AlertRow> { if id in t.alerts then Some(t.alerts[id]) else None }

  function Upsert(t: Tables, x: Item): Tables {
    if x.Alert? then t.(alerts := t.alerts[x.id := MergeAlert(AlertAt(t, x.id), x)])
    else t.(events := t.events[x.id := MergeEvent(EventAt(t, x.id), x)])
  }

  // A row of another camera answers 409 and stays as it is.
  predicate Accepts(t: Tables, x: Item) {
    if x.Alert? then x.id in t.alerts ==> t.alerts[x.id].camera == x.camera
    else x.id in t.events ==> t.events[x.id].camera == x.camera
  }

  class Central {
    var events: map<Id, EventRow>
    var alerts: map<Id, AlertRow>

    ghost function View(): Tables reads this { Tables(events, alerts) }

    method UpsertEvent(x: Item) returns (accepted: bool)
      requires x.Event? || x.Count?
      modifies this`events
      ensures View() == Upsert(old(View()), x) && accepted == Accepts(old(View()), x)
      ensures !accepted ==> View() == old(View())
      ensures accepted <==> (x.id in old(events) ==> old(events)[x.id].camera == x.camera)
      ensures forall id :: id != x.id ==> (id in events <==> id in old(events))
      ensures forall id :: id != x.id && id in events ==> events[id] == old(events)[id]
      // An accepted row has the delivered body; a first delivery sets the rest, a later one only an event's image.
      ensures accepted ==>
        && x.id in events && events[x.id].camera == x.camera
        && events[x.id].body == if x.Event? then x.body else Counts(x.countIn, x.countOut)
      ensures accepted && x.id !in old(events) ==>
        && events[x.id].createdAt == x.createdAt
        && events[x.id].kind == (if x.Event? then x.kind else "people_count")
        && events[x.id].image == if x.Event? then x.image else None
      ensures accepted && x.id in old(events) ==>
        && events[x.id].createdAt == old(events)[x.id].createdAt && events[x.id].kind == old(events)[x.id].kind
        && events[x.id].image == if x.Event? then x.image else old(events)[x.id].image
    {
      var body := if x.Event? then x.body else Counts(x.countIn, x.countOut);
      if x.id !in events {
        events := events[x.id := EventRow(x.camera, if x.Event? then x.kind else "people_count", body,
                                          if x.Event? then x.image else None, x.createdAt)];
        return true;
      }
      var row := events[x.id];
      if row.camera != x.camera { return false; }
      row := row.(body := body);
      if x.Event? { row := row.(image := x.image); }
      events := events[x.id := row];
      return true;
    }

    method UpsertAlert(x: Item) returns (accepted: bool)
      requires x.Alert?
      modifies this`alerts
      ensures View() == Upsert(old(View()), x) && accepted == Accepts(old(View()), x)
      ensures !accepted ==> View() == old(View())
      ensures accepted <==> (x.id in old(alerts) ==> old(alerts)[x.id].camera == x.camera)
      ensures forall id :: id != x.id ==> (id in alerts <==> id in old(alerts))
      ensures forall id :: id != x.id && id in alerts ==> alerts[id] == old(alerts)[id]
      // The delivered image and confidence; once resolved, resolved; zone and time as first delivered.
      ensures accepted ==>
        && x.id in alerts && alerts[x.id].camera == x.camera
        && alerts[x.id].image == x.image && alerts[x.id].confidence == x.confidence
      ensures accepted && x.id !in old(alerts) ==>
        alerts[x.id].resolved == x.resolved && alerts[x.id].zone == x.zone && alerts[x.id].createdAt == x.createdAt
      ensures accepted && x.id in old(alerts) ==>
        && alerts[x.id].zone == old(alerts)[x.id].zone && alerts[x.id].createdAt == old(alerts)[x.id].createdAt
        && (alerts[x.id].resolved <==> old(alerts)[x.id].resolved || x.resolved)
    {
      if x.id !in alerts {
        alerts := alerts[x.id := AlertRow(x.camera, x.zone, x.image, x.confidence, x.resolved, x.createdAt)];
        return true;
      }
      var row := alerts[x.id];
      if row.camera != x.camera { return false; }
      alerts := alerts[x.id := row.(image := x.image, confidence := x.confidence,
                                    resolved := row.resolved || x.resolved)];
      return true;
    }
  }

  // ---------------------------------------------------------------- many deliveries

  function DeliverAll(t: Tables, xs: seq<Item>): Tables {
    if xs == [] then t else Upsert(DeliverAll(t, xs[..|xs| - 1]), xs[|xs| - 1])
  }

  // Same table, same primary key.
  predicate SameSlot(x: Item, y: Item) { x.id == y.id && (x.Alert? <==> y.Alert?) }

  ghost predicate Consistent(xs: seq<Item>) {
    forall x, y :: x in xs && y in xs && SameSlot(x, y) ==> x == y
  }

  // After the deliveries, a row's slot holds one merge of its item into what was there.
  lemma {:induction false} DeliveredSlot(t: Tables, xs: seq<Item>, x: Item)
    requires Consistent(xs) && x in xs
    ensures if x.Alert? then AlertAt(DeliverAll(t, xs), x.id) == Some(MergeAlert(AlertAt(t, x.id), x))
            else EventAt(DeliverAll(t, xs), x.id) == Some(MergeEvent(EventAt(t, x.id), x))
  {
    var n, last := |xs| - 1, xs[|xs| - 1];
    assert xs == xs[..n] + [last] && last in xs;
    assert SameSlot(x, last) ==> x == last;
    if x in xs[..n] {
      DeliveredSlot(t, xs[..n], x);
    } else {
      UntouchedSlot(t, xs[..n], x);
    }
  }

  lemma {:induction false} UntouchedSlot(t: Tables, xs: seq<Item>, x: Item)
    requires forall y :: y in xs ==> !SameSlot(x, y)
    ensures if x.Alert? then AlertAt(DeliverAll(t, xs), x.id) == AlertAt(t, x.id)
            else EventAt(DeliverAll(t, xs), x.id) == EventAt(t, x.id)
  {
    if xs != [] {
      assert !SameSlot(x, xs[|xs| - 1]);
      UntouchedSlot(t, xs[..|xs| - 1], x);
    }
  }

  /** However often and in whatever order the same items are delivered, the tables end up
      the same, starting from any tables. */
  lemma DeliveryIsOrderAndCountFree(t: Tables, xs: seq<Item>, ys: seq<Item>)
    requires Consistent(xs) && forall x :: x in xs <==> x in ys
    ensures DeliverAll(t, xs) == DeliverAll(t, ys)
  {
    var a, b := DeliverAll(t, xs), DeliverAll(t, ys);
    forall id: Id ensures EventAt(a, id) == EventAt(b, id) && AlertAt(a, id) == AlertAt(b, id) {
      SameAt(t, xs, ys, Count(id, 0, 0, 0, 0));
      SameAt(t, xs, ys, Alert(id, 0, None, None, None, false, 0));
    }
    forall id: Id ensures (id in a.events <==> id in b.events) && (id in a.alerts <==> id in b.alerts) {
      assert EventAt(a, id) == EventAt(b, id) && AlertAt(a, id) == AlertAt(b, id);
    }
    assert a.events.Keys == b.events.Keys && a.alerts.Keys == b.alerts.Keys;
    assert forall id :: id in a.events ==> a.events[id] == EventAt(a, id).value && b.events[id] == EventAt(b, id).value;
    assert forall id :: id in a.alerts ==> a.alerts[id] == AlertAt(a, id).value && b.alerts[id] == AlertAt(b, id).value;
    assert a.events == b.events && a.alerts == b.alerts;
  }

  lemma SameAt(t: Tables, xs: seq<Item>, ys: seq<Item>, slot: Item)
    requires Consistent(xs) && forall x :: x in xs <==> x in ys
    ensures if slot.Alert? then AlertAt(DeliverAll(t, xs), slot.id) == AlertAt(DeliverAll(t, ys), slot.id)
            else EventAt(DeliverAll(t, xs), slot.id) == EventAt(DeliverAll(t, ys), slot.id)
  {
    if x :| x in xs && SameSlot(slot, x) {
      DeliveredSlot(t, xs, x);
      DeliveredSlot(t, ys, x);
    } else {
      UntouchedSlot(t, xs, slot);
      UntouchedSlot(t, ys, slot);
    }
  }

  // Two deliveries say the same about one slot, up to what a merge keeps either way: whether an
  // alert is resolved, and the image of an event against a people count, which share a table.
  predicate Agree(x: Item, y: Item) {
    if !SameSlot(x, y) then true
    else if x.Alert? then x.(resolved := true) == y.(resolved := true)
    else if x.Event? == y.Event? then x == y
    else MergeEvent(None, x).(image := None) == MergeEvent(None, y).(image := None)
  }

  lemma AgreeingCommute(t: Tables, x: Item, y: Item)
    requires Agree(x, y)
    ensures Upsert(Upsert(t, x), y) == Upsert(Upsert(t, y), x)
  {
    if x.Alert? && y.Alert? { AlertsCommute(t, x, y); } else if !x.Alert? && !y.Alert? { EventsCommute(t, x, y); }
    hide Agree, MergeEvent, MergeAlert;
  }

  lemma AlertsCommute(t: Tables, x: Item, y: Item)
    requires x.Alert? && y.Alert? && Agree(x, y)
    ensures Upsert(Upsert(t, x), y) == Upsert(Upsert(t, y), x)
  {
    assert Upsert(Upsert(t, x), y).alerts == Upsert(Upsert(t, y), x).alerts;
  }

  lemma EventsCommute(t: Tables, x: Item, y: Item)
    requires !x.Alert? && !y.Alert? && Agree(x, y)
    ensures Upsert(Upsert(t, x), y) == Upsert(Upsert(t, y), x)
  {
    assert Upsert(Upsert(t, x), y).events == Upsert(Upsert(t, y), x).events;
  }

  lemma DisagreeingDiffer(x: Item, y: Item)
    requires !Agree(x, y)
    ensures var t := Tables(map[], map[]); Upsert(Upsert(t, x), y) != Upsert(Upsert(t, y), x)
  {
    var t := Tables(map[], map[]);
    var a, b := Upsert(Upsert(t, x), y), Upsert(Upsert(t, y), x);
    if x.Alert? { assert a.alerts[x.id] != b.alerts[x.id]; } else { assert a.events[x.id] != b.events[x.id]; }
  }

  /** Exactly when order is free: two deliveries of any kinds commute on all tables if and only
      if they agree. */
  lemma OrderFreeIff(x: Item, y: Item)
    ensures Agree(x, y) <==> forall t {:trigger Upsert(t, x)} :: Upsert(Upsert(t, x), y) == Upsert(Upsert(t, y), x)
  {
    if Agree(x, y) {
      forall t ensures Upsert(Upsert(t, x), y) == Upsert(Upsert(t, y), x) { AgreeingCommute(t, x, y); }
    } else {
      DisagreeingDiffer(x, y);
    }
  }

  /** A resolved alert is never unresolved again, whatever is delivered. */
  lemma {:induction false} ResolvedStays(t: Tables, xs: seq<Item>, id: Id)
    requires id in t.alerts && t.alerts[id].resolved
    ensures id in DeliverAll(t, xs).alerts && DeliverAll(t, xs).alerts[id].resolved
  {
    if xs != [] {
      ResolvedStays(t, xs[..|xs| - 1], id);
    }
  }
}
