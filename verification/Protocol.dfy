/**
 The order manager and the venue as two views of the same orders.

 Acknowledgements, fills and cancel acknowledgements travel from the venue to the manager, cancels travel back
 on a timer, and both sides act on their own clock readings.  Everything is first settled for a single order
 (`Agree`); the loops over all orders are then shown to act on each order alone.
 */
module Protocol {
  import opened Wrappers
  import opened RealMath
  import opened Models
  import opened Orders
  import opened OrderManagement
  import V = Venue
  import VR = VenueRuns

  type Working = V.Working

  // ----- applying venue events (`_apply_venue_events`)

  function ApplyEvent(b: Book, ev: V.VenueEvent, now: Time): Outcome {
    match ev
    case Acked(coid) => Outcome(Do(b, coid, Ack, now).book, false)
    case CancelAcked(coid) =>
      var b' := if coid in b.orders && b.orders[coid].state in {Acknowledged, Partial}
                then Do(b, coid, RequestCancel, now).book else b;
      Outcome(Do(b', coid, CancelAck, now).book, false)
    case Rejects(coid) => Do(b, coid, Reject, now)
    case Fills(_, fill) => Do(b, fill.coid, Execution(fill.quantity, fill.price), now)
  }

  /** An exception abandons the rest of the events. */
  function ApplyAll(b: Book, events: seq<V.VenueEvent>, now: Time): Outcome
    decreases |events|
  {
    if events == [] then Outcome(b, false) else
    var r := ApplyEvent(b, events[0], now);
    if r.raised then r else ApplyAll(r.book, events[1..], now)
  }

  /** The same, seen by the order the events are about. */
  function EventOn(o: ManagedOrder, ev: V.VenueEvent, now: Time): (ManagedOrder, bool) {
    match ev
    case Acked(_) => (Apply(o, Ack, now).order, false)
    case CancelAcked(_) =>
      var o' := if o.state in {Acknowledged, Partial} then Apply(o, RequestCancel, now).order else o;
      (Apply(o', CancelAck, now).order, false)
    case Rejects(_) => var s := Apply(o, Reject, now); (s.order, s.raised)
    case Fills(_, fill) => var s := Apply(o, Execution(fill.quantity, fill.price), now); (s.order, s.raised)
  }

  function EventsOn(o: ManagedOrder, events: seq<V.VenueEvent>, now: Time): (ManagedOrder, bool)
    decreases |events|
  {
    if events == [] then (o, false) else
    var (o', raised) := EventOn(o, events[0], now);
    if raised then (o', true) else EventsOn(o', events[1..], now)
  }

  /** All shares the venue reported as filled for one order. */
  function Total(events: seq<V.VenueEvent>, coid: string): real
    decreases |events|
  {
    if events == [] then 0.0 else
    (if events[0].Fills? && events[0].coid == coid then events[0].fill.quantity else 0.0) + Total(events[1..], coid)
  }

  predicate About(events: seq<V.VenueEvent>, coid: string) {
    forall ev :: ev in events ==> ev.coid == coid && (ev.Fills? ==> ev.fill.coid == coid)
  }

  lemma EventOnFrame(o: ManagedOrder, ev: V.VenueEvent, now: Time)
    ensures var o' := EventOn(o, ev, now).0;
            && o'.request == o.request && o'.expireAt == o.expireAt
            && o'.filledQty == o.filledQty + (if ev.Fills? then ev.fill.quantity else 0.0)
  {
    match ev
    case Acked(_) => ApplyFrame(o, Ack, now);
    case CancelAcked(_) =>
      ApplyFrame(o, RequestCancel, now);
      ApplyFrame(o, CancelAck, now);
      ApplyFrame(Apply(o, RequestCancel, now).order, CancelAck, now);
    case Rejects(_) => ApplyFrame(o, Reject, now);
    case Fills(_, fill) => ApplyFrame(o, Execution(fill.quantity, fill.price), now);
    hide Apply;
  }

  /** Events about one order change that order alone, as `EventsOn` says, and report what they fill. */
  ghost predicate ChangesOnly(b: Book, r: Outcome, coid: string, o: ManagedOrder) {
    && WellFormed(r.book) && r.book.ids == b.ids && r.book.orders.Keys == b.orders.Keys
    && coid in r.book.orders && r.book.orders[coid] == o
    && (forall d :: d in b.orders && d != coid ==> r.book.orders[d] == b.orders[d])
  }

  lemma PutChangesOnly(b: Book, coid: string, s: Step)
    requires WellFormed(b) && coid in b.orders && s.order.request == b.orders[coid].request
    ensures ChangesOnly(b, Outcome(Put(b, coid, s), s.raised), coid, s.order)
  {
    PutKeepsWellFormed(b, coid, s);
  }

  lemma DoChangesOnly(b: Book, coid: string, op: Op, now: Time)
    requires WellFormed(b) && coid in b.orders
    ensures var s := Apply(b.orders[coid], op, now);
            Do(b, coid, op, now).raised == s.raised && ChangesOnly(b, Do(b, coid, op, now), coid, s.order)
  {
    ApplyFrame(b.orders[coid], op, now);
    PutChangesOnly(b, coid, Apply(b.orders[coid], op, now));
    hide Apply, ChangesOnly, WellFormed;
  }

  lemma EventChangesOnly(b: Book, ev: V.VenueEvent, coid: string, now: Time)
    requires WellFormed(b) && coid in b.orders && ev.coid == coid && (ev.Fills? ==> ev.fill.coid == coid)
    ensures var (o, raised) := EventOn(b.orders[coid], ev, now);
            ApplyEvent(b, ev, now).raised == raised && ChangesOnly(b, ApplyEvent(b, ev, now), coid, o)
  {
    hide Apply, Do;
    match ev
    case Acked(_) => DoChangesOnly(b, coid, Ack, now);
    case CancelAcked(_) =>
      if b.orders[coid].state in {Acknowledged, Partial} {
        DoChangesOnly(b, coid, RequestCancel, now);
        DoChangesOnly(Do(b, coid, RequestCancel, now).book, coid, CancelAck, now);
      } else {
        DoChangesOnly(b, coid, CancelAck, now);
      }
    case Rejects(_) => DoChangesOnly(b, coid, Reject, now);
    case Fills(_, fill) => DoChangesOnly(b, coid, Execution(fill.quantity, fill.price), now);
  }

  lemma {:induction false} AllChangeOnly(b: Book, events: seq<V.VenueEvent>, coid: string, now: Time)
    requires WellFormed(b) && coid in b.orders && About(events, coid)
    ensures var (o, raised) := EventsOn(b.orders[coid], events, now);
            && ApplyAll(b, events, now).raised == raised && ChangesOnly(b, ApplyAll(b, events, now), coid, o)
            && (!raised ==> o.filledQty == b.orders[coid].filledQty + Total(events, coid))
    decreases |events|
  {
    if events != [] {
      assert events[0] in events;
      EventChangesOnly(b, events[0], coid, now);
      EventOnFrame(b.orders[coid], events[0], now);
      var r := ApplyEvent(b, events[0], now);
      hide ApplyEvent, EventOn;
      if !r.raised {
        assert About(events[1..], coid);
        AllChangeOnly(r.book, events[1..], coid, now);
      }
    }
  }

  lemma {:induction false} ApplyAllSplit(b: Book, first: seq<V.VenueEvent>, rest: seq<V.VenueEvent>, now: Time)
    requires !ApplyAll(b, first, now).raised
    ensures ApplyAll(b, first + rest, now) == ApplyAll(ApplyAll(b, first, now).book, rest, now)
    decreases |first|
  {
    hide ApplyEvent;
    if first == [] {
      assert first + rest == rest;
    } else {
      assert (first + rest)[1..] == first[1..] + rest;
      ApplyAllSplit(ApplyEvent(b, first[0], now).book, first[1..], rest, now);
    }
  }

  lemma {:induction false} TotalSplit(first: seq<V.VenueEvent>, rest: seq<V.VenueEvent>, coid: string)
    ensures Total(first + rest, coid) == Total(first, coid) + Total(rest, coid)
    decreases |first|
  {
    if first == [] {
      assert first + rest == rest;
    } else {
      assert (first + rest)[1..] == first[1..] + rest;
      TotalSplit(first[1..], rest, coid);
    }
  }

  lemma {:induction false} TotalOfOthers(events: seq<V.VenueEvent>, coid: string, other: string)
    requires About(events, coid) && other != coid
    ensures Total(events, other) == 0.0
    decreases |events|
  {
    if events != [] {
      assert events[0] in events;
      assert About(events[1..], coid);
      TotalOfOthers(events[1..], coid, other);
    }
  }

  // ----- a visit of the venue, order by order

  function Look(working: V.WorkingMap, coid: string): Option<Working> {
    if coid in working then Some(working[coid]) else None
  }

  ghost predicate Distinct(ids: seq<string>) {
    forall i, j :: 0 <= i < j < |ids| ==> ids[i] != ids[j]
  }

  ghost predicate Known(b: Book, working: V.WorkingMap) {
    WellFormed(b) && forall c :: c in working ==> c in b.orders && working[c].req.coid == c
  }

  lemma ReactAbout(cfg: V.Config, w: Working, input: V.Input, now: Time)
    ensures About(V.React(cfg, w, input, now).events, w.req.coid)
    ensures V.React(cfg, w, input, now).order.Some? ==> V.React(cfg, w, input, now).order.value.req == w.req
  {
    hide V.TakeLimit;
  }

  /** Nothing the venue would report now about these orders is refused by the manager. */
  ghost predicate Acceptable(cfg: V.Config, b: Book, ids: seq<string>, working: V.WorkingMap, input: V.Input, now: Time)
    requires Known(b, working)
  {
    forall c :: c in working && c in ids ==> !EventsOn(b.orders[c], V.React(cfg, working[c], input, now).events, now).1
  }

  /** One order before a visit and after it: its own reaction and nothing else. */
  ghost predicate Visited(cfg: V.Config, ids: seq<string>, input: V.Input, now: Time, c: string,
                          o: ManagedOrder, w: Option<Working>, o': ManagedOrder, w': Option<Working>, filled: real) {
    && o'.filledQty == o.filledQty + filled
    && if c in ids && w.Some? then
         var r := V.React(cfg, w.value, input, now);
         o' == EventsOn(o, r.events, now).0 && w' == r.order
       else o' == o && w' == w
  }

  /** What a visit of ids, followed by applying all of its events, does to each order. */
  ghost predicate Pointwise(cfg: V.Config, b: Book, ids: seq<string>, working: V.WorkingMap, input: V.Input, now: Time,
                            r: Outcome, working': V.WorkingMap, events: seq<V.VenueEvent>) {
    && !r.raised && Known(r.book, working') && r.book.ids == b.ids && r.book.orders.Keys == b.orders.Keys
    && (forall c :: c in b.orders ==>
          Visited(cfg, ids, input, now, c, b.orders[c], Look(working, c), r.book.orders[c], Look(working', c),
                  Total(events, c)))
  }

  lemma KeepKnown(b: Book, working: V.WorkingMap, c0: string, r: Outcome, o: ManagedOrder, w: Option<Working>)
    requires Known(b, working) && c0 in working && ChangesOnly(b, r, c0, o)
    requires (w.Some? ==> w.value.req == working[c0].req)
    ensures Known(r.book, V.Keep(working, c0, w))
  {
    hide WellFormed;
  }

  /** The book and the orders still working once the first order has reacted. */
  lemma HeadStep(cfg: V.Config, b: Book, ids: seq<string>, working: V.WorkingMap, input: V.Input, now: Time, c0: string)
    requires Known(b, working) && c0 in working
    requires !EventsOn(b.orders[c0], V.React(cfg, working[c0], input, now).events, now).1
    ensures var r := V.React(cfg, working[c0], input, now);
            Pointwise(cfg, b, [c0], working, input, now, ApplyAll(b, r.events, now), V.Keep(working, c0, r.order),
                      r.events)
  {
    hide V.React, EventsOn, ApplyAll, WellFormed, Total, About, Known;
    KnownAt(b, working, c0);
    var r := V.React(cfg, working[c0], input, now);
    ReactAbout(cfg, working[c0], input, now);
    AllChangeOnly(b, r.events, c0, now);
    forall c | c in b.orders && c != c0 ensures Total(r.events, c) == 0.0 {
      TotalOfOthers(r.events, c0, c);
    }
    KeepKnown(b, working, c0, ApplyAll(b, r.events, now), EventsOn(b.orders[c0], r.events, now).0, r.order);
  }

  lemma KnownAt(b: Book, working: V.WorkingMap, coid: string)
    requires Known(b, working)
    ensures WellFormed(b) && (coid in working ==> coid in b.orders && working[coid].req.coid == coid)
  {
    hide WellFormed;
  }

  /** Two visits of different orders make one visit of all of them. */
  lemma Compose(cfg: V.Config, b: Book, c0: string, rest: seq<string>, working: V.WorkingMap, input: V.Input, now: Time,
                r1: Outcome, working1: V.WorkingMap, events1: seq<V.VenueEvent>,
                r2: Outcome, working2: V.WorkingMap, events2: seq<V.VenueEvent>)
    requires c0 !in rest && Known(b, working)
    requires Pointwise(cfg, b, [c0], working, input, now, r1, working1, events1)
    requires Pointwise(cfg, r1.book, rest, working1, input, now, r2, working2, events2)
    ensures Pointwise(cfg, b, [c0] + rest, working, input, now, r2, working2, events1 + events2)
  {
    hide V.React, EventsOn, WellFormed, Known, Total;
    forall c | c in b.orders
      ensures Visited(cfg, [c0] + rest, input, now, c, b.orders[c], Look(working, c),
                      r2.book.orders[c], Look(working2, c), Total(events1 + events2, c))
    {
      TotalSplit(events1, events2, c);
      assert c in [c0] + rest <==> c == c0 || c in rest;
    }
  }

  lemma {:induction false} VisitPointwise(cfg: V.Config, b: Book, ids: seq<string>, working: V.WorkingMap,
                                          input: V.Input, now: Time)
    requires Known(b, working) && Distinct(ids) && Acceptable(cfg, b, ids, working, input, now)
    ensures var (working', events) := V.Visit(cfg, ids, working, input, now);
            Pointwise(cfg, b, ids, working, input, now, ApplyAll(b, events, now), working', events)
    decreases |ids|
  {
    hide V.React, EventsOn, ApplyEvent, WellFormed, V.Keep, Visited, Known, Total, Acceptable;
    if ids == [] {
      VisitNothing(cfg, b, working, input, now);
    } else if ids[0] !in working {
      AcceptableTail(cfg, b, ids, working, input, now);
      VisitPointwise(cfg, b, ids[1..], working, input, now);
      SkipHead(cfg, b, ids, working, input, now);
    } else {
      var c0, rest := ids[0], ids[1..];
      assert ids == [c0] + rest;
      AcceptableAt(cfg, b, ids, working, input, now, c0);
      var r := V.React(cfg, working[c0], input, now);
      HeadStep(cfg, b, ids, working, input, now, c0);
      var r1, working1 := ApplyAll(b, r.events, now), V.Keep(working, c0, r.order);
      AcceptableRest(cfg, b, c0, rest, working, input, now, r1, working1, r.events);
      VisitPointwise(cfg, r1.book, rest, working1, input, now);
      var (working2, events2) := V.Visit(cfg, rest, working1, input, now);
      ApplyAllSplit(b, r.events, events2, now);
      hide ApplyAll, Pointwise;
      Compose(cfg, b, c0, rest, working, input, now, r1, working1, r.events, ApplyAll(r1.book, events2, now), working2,
              events2);
    }
  }

  lemma VisitNothing(cfg: V.Config, b: Book, working: V.WorkingMap, input: V.Input, now: Time)
    requires Known(b, working)
    ensures Pointwise(cfg, b, [], working, input, now, Outcome(b, false), working, [])
  {
  }

  lemma AcceptableAt(cfg: V.Config, b: Book, ids: seq<string>, working: V.WorkingMap, input: V.Input, now: Time,
                     c: string)
    requires Known(b, working) && Acceptable(cfg, b, ids, working, input, now) && c in working && c in ids
    ensures !EventsOn(b.orders[c], V.React(cfg, working[c], input, now).events, now).1
  {
  }

  lemma AcceptableTail(cfg: V.Config, b: Book, ids: seq<string>, working: V.WorkingMap, input: V.Input, now: Time)
    requires Known(b, working) && ids != [] && Acceptable(cfg, b, ids, working, input, now)
    ensures Acceptable(cfg, b, ids[1..], working, input, now)
  {
    hide V.React, EventsOn, WellFormed;
  }

  /** An id that is no longer working is passed over. */
  lemma SkipHead(cfg: V.Config, b: Book, ids: seq<string>, working: V.WorkingMap, input: V.Input, now: Time)
    requires ids != [] && ids[0] !in working
    requires var (working', events) := V.Visit(cfg, ids[1..], working, input, now);
             Pointwise(cfg, b, ids[1..], working, input, now, ApplyAll(b, events, now), working', events)
    ensures var (working', events) := V.Visit(cfg, ids, working, input, now);
            Pointwise(cfg, b, ids, working, input, now, ApplyAll(b, events, now), working', events)
  {
    hide V.React, EventsOn, WellFormed, ApplyAll, Total, Known;
    assert forall c :: c in ids <==> c == ids[0] || c in ids[1..];
  }

  lemma AcceptableRest(cfg: V.Config, b: Book, c0: string, rest: seq<string>, working: V.WorkingMap, input: V.Input,
                       now: Time,
                       r1: Outcome, working1: V.WorkingMap, events1: seq<V.VenueEvent>)
    requires Known(b, working) && c0 !in rest && Acceptable(cfg, b, [c0] + rest, working, input, now)
    requires Pointwise(cfg, b, [c0], working, input, now, r1, working1, events1)
    ensures Acceptable(cfg, r1.book, rest, working1, input, now)
  {
    hide V.React, EventsOn, WellFormed;
    forall c | c in working1 && c in rest
      ensures !EventsOn(r1.book.orders[c], V.React(cfg, working1[c], input, now).events, now).1
    {
      assert c in r1.book.orders;
      assert Visited(cfg, [c0], input, now, c, b.orders[c], Look(working, c), r1.book.orders[c], Look(working1, c),
                     Total(events1, c));
      assert c in [c0] + rest;
    }
  }
}
