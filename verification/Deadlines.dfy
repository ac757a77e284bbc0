/**
 Deadlines, with ticks at any times: which overdue orders end, which are lost, and what a late tick does.

 Nothing here assumes that ticks are close together or that the manager accepts what the venue reports.
 */
module Deadlines {
  import opened Wrappers
  import opened RealMath
  import opened Models
  import opened Orders
  import opened OrderManagement
  import opened Protocol
  import opened SessionRuns
  import A = Agreement
  import V = Venue
  import VR = VenueRuns

  // ----- any session

  /** Time does not run backwards; polls come with ticks. */
  predicate Ordered(net: Net, e: Event) {
    match e
    case Submits(_, _, _, _, _, _, now) => net.tick <= now
    case Market(input, now) => net.tick <= now && !input.PollIn?
    case Ticks(now) => net.tick <= now
  }

  /** Events in order; a handler that raises leaves what it has done and the session goes on. */
  ghost predicate Proceeds(net: Net, cap: Option<real>, cfg: V.Config, events: seq<Event>, net': Net)
    decreases |events|
  {
    if events == [] then net' == net else
    && WellFormed(net.book) && Ordered(net, events[0])
    && Proceeds(Next(net, cap, cfg, events[0]).0, cap, cfg, events[1..], net')
  }

  // ----- what the two sides always know of each other

  /** Cancels are sent to acknowledged orders only, and a pending cancel has been sent, no later than `sent`. */
  ghost predicate LinkedOne(cfg: V.Config, sent: Time, o: ManagedOrder, w: Working) {
    && w.req == o.request && o.state != New
    && (o.state == Submitting ==> w.cancelAt.None?)
    && (o.state == CancelPending ==> w.cancelAt.Some?)
    && (w.cancelAt.Some? ==> w.cancelAt.value <= sent + cfg.cancelLatency)
  }

  ghost predicate Linked(cfg: V.Config, sent: Time, net: Net) {
    && WellFormed(net.book) && Distinct(net.ids) && net.tick <= sent
    && (forall c :: c in net.working ==> c in net.ids) && LinkedAll(cfg, sent, net.book.orders, net.working)
  }

  ghost predicate LinkedAll(cfg: V.Config, sent: Time, orders: map<string, ManagedOrder>, working: V.WorkingMap) {
    forall c :: c in working ==> c in orders && LinkedOne(cfg, sent, orders[c], working[c])
  }

  /** What venue events can do to an order, accepted or not, in any order. */
  predicate Drifts(o: ManagedOrder, o': ManagedOrder) {
    && o'.request == o.request && o'.expireAt == o.expireAt
    && (o'.state in {New, Submitting, CancelPending} ==> o.state == o'.state)
    && (Terminal(o.state) ==> Terminal(o'.state))
  }

  ghost predicate DriftsAll(b: Book, b': Book) {
    && WellFormed(b') && b'.ids == b.ids && b'.orders.Keys == b.orders.Keys
    && forall c :: c in b.orders ==> Drifts(b.orders[c], b'.orders[c])
  }

  lemma EventOnDrifts(o: ManagedOrder, ev: V.VenueEvent, now: Time)
    ensures Drifts(o, EventOn(o, ev, now).0)
  {
    EventOnFrame(o, ev, now);
    if ev.Fills? { AccumulateFrame(o, ev.fill.quantity, ev.fill.price); }
    hide Accumulate;
  }

  predicate OwnCoid(ev: V.VenueEvent) { ev.Fills? ==> ev.fill.coid == ev.coid }

  lemma EventDrifts(b: Book, ev: V.VenueEvent, now: Time)
    requires WellFormed(b) && OwnCoid(ev)
    ensures DriftsAll(b, ApplyEvent(b, ev, now).book)
    ensures forall c :: c in b.orders && c != ev.coid ==> ApplyEvent(b, ev, now).book.orders[c] == b.orders[c]
  {
    if ev.coid in b.orders {
      EventChangesOnly(b, ev, ev.coid, now);
      EventOnDrifts(b.orders[ev.coid], ev, now);
    }
    hide WellFormed, EventOn, Drifts, Apply;
    forall o: ManagedOrder ensures Drifts(o, o) { NoDrift(o); }
  }

  lemma NoDrift(o: ManagedOrder)
    ensures Drifts(o, o)
  {
  }

  lemma DriftsTwice(b: Book, b1: Book, b2: Book)
    requires DriftsAll(b, b1) && DriftsAll(b1, b2)
    ensures DriftsAll(b, b2)
  {
    hide WellFormed;
    forall c | c in b.orders ensures Drifts(b.orders[c], b2.orders[c]) {
      assert Drifts(b.orders[c], b1.orders[c]) && Drifts(b1.orders[c], b2.orders[c]);
    }
  }

  lemma {:induction false} EventsDrift(b: Book, events: seq<V.VenueEvent>, now: Time)
    requires WellFormed(b) && forall ev :: ev in events ==> OwnCoid(ev)
    ensures DriftsAll(b, ApplyAll(b, events, now).book)
    decreases |events|
  {
    hide ApplyEvent, WellFormed, Drifts;
    if events == [] {
      forall o: ManagedOrder ensures Drifts(o, o) { NoDrift(o); }
    } else {
      assert events[0] in events;
      EventDrifts(b, events[0], now);
      var b1 := ApplyEvent(b, events[0], now).book;
      EventsDrift(b1, events[1..], now);
      if !ApplyEvent(b, events[0], now).raised { DriftsTwice(b, b1, ApplyAll(b1, events[1..], now).book); }
    }
  }

  /** Events about other orders leave an order as it is, whether or not they are accepted. */
  lemma {:induction false} EventsElsewhere(b: Book, events: seq<V.VenueEvent>, now: Time, c: string)
    requires WellFormed(b) && c in b.orders && forall ev :: ev in events ==> OwnCoid(ev) && ev.coid != c
    ensures var b' := ApplyAll(b, events, now).book; c in b'.orders && b'.orders[c] == b.orders[c]
    decreases |events|
  {
    hide ApplyEvent, WellFormed, Drifts;
    if events != [] {
      assert events[0] in events;
      EventDrifts(b, events[0], now);
      EventsElsewhere(ApplyEvent(b, events[0], now).book, events[1..], now, c);
    }
  }

  /** The venue's side of a pass: orders stay or go, nothing else of interest changes, and polls leave no due cancel. */
  lemma {:induction false} VisitKeeps(cfg: V.Config, ids: seq<string>, working: V.WorkingMap, input: V.Input, now: Time)
    requires Distinct(ids) && forall c :: c in working ==> working[c].req.coid == c
    ensures var (working', events) := V.Visit(cfg, ids, working, input, now);
            && (forall c :: c in working' ==>
                  && c in working && working'[c].req == working[c].req && working'[c].cancelAt == working[c].cancelAt
                  && (input.PollIn? && c in ids && working[c].cancelAt.Some? ==> now < working[c].cancelAt.value))
            && (forall ev :: ev in events ==> OwnCoid(ev) && ev.coid in working && ev.coid in ids)
    decreases |ids|
  {
    hide V.React;
    if ids != [] {
      if ids[0] !in working {
        VisitKeeps(cfg, ids[1..], working, input, now);
      } else {
        var w := working[ids[0]];
        ReactKeeps(cfg, w, input, now);
        ReactAbout(cfg, w, input, now);
        VisitKeeps(cfg, ids[1..], V.Keep(working, ids[0], V.React(cfg, w, input, now).order), input, now);
      }
    }
  }

  lemma ReactKeeps(cfg: V.Config, w: Working, input: V.Input, now: Time)
    ensures var r := V.React(cfg, w, input, now);
            r.order.Some? ==>
              && r.order.value.req == w.req && r.order.value.cancelAt == w.cancelAt
              && (input.PollIn? && w.cancelAt.Some? ==> now < w.cancelAt.value)
  {
    hide V.TakeLimit;
  }

  lemma DeliverLinked(cfg: V.Config, sent: Time, net: Net, input: V.Input, now: Time)
    requires Linked(cfg, sent, net)
    ensures var net' := Deliver(net, cfg, input, now).0;
            && Linked(cfg, sent, net') && DriftsAll(net.book, net'.book) && net'.tick == net.tick
            && (forall c :: c in net'.working ==>
                  c in net.working && net'.working[c].cancelAt == net.working[c].cancelAt)
  {
    VisitKeeps(cfg, net.ids, net.working, input, now);
    var (working, events) := V.Visit(cfg, net.ids, net.working, input, now);
    hide V.Visit, ApplyAll, WellFormed, Drifts, LinkedOne;
    EventsDrift(net.book, events, now);
    DriftLinkedAll(cfg, sent, net.book, ApplyAll(net.book, events, now).book, net.working, working);
    hide LinkedAll;
  }

  lemma DriftLinkedAll(cfg: V.Config, sent: Time, b: Book, b': Book, working: V.WorkingMap, working': V.WorkingMap)
    requires LinkedAll(cfg, sent, b.orders, working) && DriftsAll(b, b')
    requires forall c :: c in working' ==>
               c in working && working'[c].req == working[c].req && working'[c].cancelAt == working[c].cancelAt
    ensures LinkedAll(cfg, sent, b'.orders, working')
  {
    hide WellFormed, Drifts, LinkedOne;
    forall c | c in working' ensures LinkedOne(cfg, sent, b'.orders[c], working'[c]) {
      DriftLinked(cfg, sent, b.orders[c], b'.orders[c], working[c], working'[c]);
    }
  }

  lemma DriftLinked(cfg: V.Config, sent: Time, o: ManagedOrder, o': ManagedOrder, w: Working, w': Working)
    requires LinkedOne(cfg, sent, o, w) && Drifts(o, o') && w'.req == w.req && w'.cancelAt == w.cancelAt
    ensures LinkedOne(cfg, sent, o', w')
  {
  }

  lemma SweptLinkedOne(cfg: V.Config, sent: Time, o: ManagedOrder, w: Working, now: Time)
    requires LinkedOne(cfg, sent, o, w) && sent <= now
    ensures A.SweptWorking(cfg, o, Some(w), now).Some?
    ensures LinkedOne(cfg, now, A.SweptOrder(o, now), A.SweptWorking(cfg, o, Some(w), now).value)
  {
    ApplyFrame(o, Ttl, now);
    hide Accumulate;
  }

  lemma SweptLinked(cfg: V.Config, net: Net, now: Time)
    requires Linked(cfg, net.tick, net) && net.tick <= now
    ensures var mid := Swept(net, cfg, now); SweptPointwise(net, cfg, now, mid) && Linked(cfg, now, mid)
  {
    hide Swept, LinkedOne;
    SweepIsPointwise(net, cfg, now);
    SweptLinkedAll(cfg, net, now, Swept(net, cfg, now));
    hide LinkedAll, A.SweptOrder, A.SweptWorking, WellFormed;
  }

  lemma SweptLinkedAll(cfg: V.Config, net: Net, now: Time, mid: Net)
    requires LinkedAll(cfg, net.tick, net.book.orders, net.working) && net.tick <= now
    requires SweptPointwise(net, cfg, now, mid)
    ensures LinkedAll(cfg, now, mid.book.orders, mid.working)
  {
    hide A.SweptOrder, A.SweptWorking, WellFormed, LinkedOne;
    forall c | c in mid.working ensures LinkedOne(cfg, now, mid.book.orders[c], mid.working[c]) {
      assert Look(mid.working, c) == A.SweptWorking(cfg, net.book.orders[c], Look(net.working, c), now);
      SweptLinkedOne(cfg, net.tick, net.book.orders[c], net.working[c], now);
    }
  }

  lemma TickLinked(cfg: V.Config, net: Net, now: Time)
    requires Linked(cfg, net.tick, net) && net.tick <= now
    ensures Linked(cfg, now, Tick(net, cfg, now).0) && Tick(net, cfg, now).0.tick == now
  {
    SweptLinked(cfg, net, now);
    DeliverLinked(cfg, now, Swept(net, cfg, now), V.PollIn, now);
    hide Swept, Deliver, WellFormed, LinkedOne;
  }

  lemma SubmitLinked(cfg: V.Config, net: Net, cap: Option<real>, e: Event)
    requires Linked(cfg, net.tick, net) && e.Submits? && net.tick <= e.now
    ensures Linked(cfg, net.tick, Next(net, cap, cfg, e).0) && Next(net, cap, cfg, e).0.tick == net.tick
  {
    SubmitAdds(net, cap, cfg, e);
    var net' := Next(net, cap, cfg, e).0;
    if net' != net {
      WithoutDistinct(net.ids, e.req.coid);
      hide Next, V.Submitted, V.Without, WellFormed, LinkedAll;
      SubmitLinkedAll(cfg, net, e, net');
    }
  }

  lemma SubmitLinkedAll(cfg: V.Config, net: Net, e: Event, net': Net)
    requires e.Submits? && Adds(net, cfg, e, net') && LinkedAll(cfg, net.tick, net.book.orders, net.working)
    ensures LinkedAll(cfg, net.tick, net'.book.orders, net'.working)
  {
    SubmittedUncancelled(cfg, e.req, e.tif, LastQuote(net, e.req.symbol), e.now);
    hide V.Submitted, V.Without, WellFormed;
  }

  lemma SubmittedUncancelled(cfg: V.Config, req: OrderRequest, tif: V.Tif, q: Option<Quote>, now: Time)
    ensures V.Submitted(cfg, req, tif, q, now).req == req && V.Submitted(cfg, req, tif, q, now).cancelAt == None
  {
    hide V.JoinBehind;
  }

  lemma NextLinked(cfg: V.Config, net: Net, cap: Option<real>, e: Event)
    requires Linked(cfg, net.tick, net) && Ordered(net, e)
    ensures WellFormed(net.book)
    ensures var net' := Next(net, cap, cfg, e).0; Linked(cfg, net'.tick, net') && net.tick <= net'.tick
  {
    match e
    case Submits(_, _, _, _, _, _, _) => SubmitLinked(cfg, net, cap, e);
    case Market(input, now) =>
      DeliverLinked(cfg, net.tick, net, input, now);
      TickLinked(cfg, Deliver(net, cfg, input, now).0, now);
    case Ticks(now) => TickLinked(cfg, net, now);
    hide Deliver, Tick, Submit, WellFormed, LinkedOne;
  }

  lemma {:induction false} SessionLinked(cfg: V.Config, net: Net, cap: Option<real>, events: seq<Event>, net': Net)
    requires Linked(cfg, net.tick, net) && Proceeds(net, cap, cfg, events, net')
    ensures Linked(cfg, net'.tick, net')
    decreases |events|
  {
    hide Linked, Next, WellFormed, Ordered;
    if events != [] {
      NextLinked(cfg, net, cap, events[0]);
      SessionLinked(cfg, Next(net, cap, cfg, events[0]).0, cap, events[1..], net');
    }
  }

  lemma StartLinked(cfg: V.Config, t0: Time)
    ensures Linked(cfg, t0, Start(t0)) && Start(t0).tick == t0
  {
  }

  // ----- an overdue order from one tick to a later one

  /** Not unacknowledged any more; closed if the venue works it without a cancel that arrives by the deadline. */
  ghost predicate FatedOne(o: ManagedOrder, w: Option<Working>, deadline: Time) {
    && o.state !in {New, Submitting}
    && (w.Some? ==> Terminal(o.state) || (w.value.cancelAt.Some? && w.value.cancelAt.value <= deadline))
  }

  ghost predicate Fated(net: Net, c: string, deadline: Time) {
    c in net.book.orders && FatedOne(net.book.orders[c], Look(net.working, c), deadline)
  }

  /** Open, but not worked by the venue: there is nothing left to hear about it. */
  ghost predicate Lost(net: Net, c: string) {
    && c in net.book.orders && c !in net.working
    && !Terminal(net.book.orders[c].state) && net.book.orders[c].state !in {New, Submitting}
  }

  lemma SweptFate(cfg: V.Config, sent: Time, o: ManagedOrder, w: Option<Working>, now: Time)
    requires Overdue(o, now) && o.state != New && sent <= now && (w.Some? ==> LinkedOne(cfg, sent, o, w.value))
    ensures FatedOne(A.SweptOrder(o, now), A.SweptWorking(cfg, o, w, now), now + cfg.cancelLatency)
  {
    hide Accumulate;
  }

  lemma SweptKeepsFate(cfg: V.Config, o: ManagedOrder, w: Option<Working>, now: Time, deadline: Time)
    requires FatedOne(o, w, deadline)
    ensures FatedOne(A.SweptOrder(o, now), A.SweptWorking(cfg, o, w, now), deadline)
    ensures Terminal(A.SweptOrder(o, now).state) <==> Terminal(o.state)
    ensures A.SweptWorking(cfg, o, w, now).Some? <==> w.Some?
  {
    hide Accumulate;
  }

  /** The sweep sees each order on both sides at once. */
  lemma SweptPair(cfg: V.Config, net: Net, now: Time, c: string)
    requires Linked(cfg, net.tick, net) && net.tick <= now && c in net.book.orders
    ensures var mid := Swept(net, cfg, now);
            && c in mid.book.orders && mid.book.orders[c] == A.SweptOrder(net.book.orders[c], now)
            && Look(mid.working, c) == A.SweptWorking(cfg, net.book.orders[c], Look(net.working, c), now)
    ensures c in net.working ==> LinkedOne(cfg, net.tick, net.book.orders[c], net.working[c])
  {
    SweptLinked(cfg, net, now);
    hide Swept, WellFormed, A.SweptOrder, A.SweptWorking, LinkedOne;
  }

  lemma SweepFates(cfg: V.Config, net: Net, now: Time, c: string)
    requires Linked(cfg, net.tick, net) && net.tick <= now && c in net.book.orders
    requires Overdue(net.book.orders[c], now) && net.book.orders[c].state != New
    ensures Fated(Swept(net, cfg, now), c, now + cfg.cancelLatency)
  {
    SweptPair(cfg, net, now, c);
    SweptFate(cfg, net.tick, net.book.orders[c], Look(net.working, c), now);
    hide Swept, Linked, A.SweptOrder, A.SweptWorking, LinkedOne, FatedOne, Overdue;
  }

  lemma SweepKeepsFated(cfg: V.Config, net: Net, now: Time, c: string, deadline: Time)
    requires Linked(cfg, net.tick, net) && net.tick <= now && Fated(net, c, deadline)
    ensures Fated(Swept(net, cfg, now), c, deadline)
    ensures Terminal(Swept(net, cfg, now).book.orders[c].state) <==> Terminal(net.book.orders[c].state)
    ensures c in Swept(net, cfg, now).working <==> c in net.working
  {
    SweptPair(cfg, net, now, c);
    SweptKeepsFate(cfg, net.book.orders[c], Look(net.working, c), now, deadline);
    hide Swept, Linked, A.SweptOrder, A.SweptWorking, LinkedOne, FatedOne, Terminal;
  }

  lemma DeliverKeepsFated(cfg: V.Config, sent: Time, net: Net, input: V.Input, now: Time, c: string, deadline: Time)
    requires Linked(cfg, sent, net) && Fated(net, c, deadline)
    ensures Fated(Deliver(net, cfg, input, now).0, c, deadline)
    ensures Terminal(net.book.orders[c].state) ==> Terminal(Deliver(net, cfg, input, now).0.book.orders[c].state)
  {
    DeliverLinked(cfg, sent, net, input, now);
    hide Deliver, WellFormed, LinkedAll;
    assert Drifts(net.book.orders[c], Deliver(net, cfg, input, now).0.book.orders[c]);
  }

  /** A poll is never refused. */
  lemma PollAccepted(cfg: V.Config, o: ManagedOrder, w: Working, now: Time)
    ensures var r := V.React(cfg, w, V.PollIn, now);
            var (o', raised) := EventsOn(o, r.events, now);
            && !raised
            && (w.cancelAt.Some? && w.cancelAt.value <= now && !Terminal(o.state) && o.state !in {New, Submitting}
                ==> Terminal(o'.state))
  {
    hide EventOn, EventsOn;
    var r := V.PollOne(w, now);
    var ack, cancel := V.Acked(w.req.coid), V.CancelAcked(w.req.coid);
    A.AckOn(o, ack, now);
    A.CancelAckOn(o, cancel, now);
    A.CancelAckOn(EventOn(o, ack, now).0, cancel, now);
    if r.events == [] {
      A.NoEvents(o, now);
    } else if |r.events| == 1 {
      assert r.events == [r.events[0]];
      A.EventsOnOne(o, r.events[0], now);
    } else {
      assert r.events == [ack, cancel];
      A.EventsOnTwo(o, ack, cancel, now);
    }
  }

  /** The poll at or after the deadline closes an order the venue works, and only that. */
  lemma PollEnds(cfg: V.Config, net: Net, now: Time, c: string, deadline: Time)
    requires Linked(cfg, now, net) && Fated(net, c, deadline) && deadline <= now
    ensures var net' := Deliver(net, cfg, V.PollIn, now).0;
            c in net'.book.orders
            && (Terminal(net'.book.orders[c].state) <==> Terminal(net.book.orders[c].state) || c in net.working)
  {
    LinkedKnown(cfg, now, net);
    hide WellFormed, EventsOn, V.React, LinkedOne, Known;
    forall d | d in net.working && d in net.ids
      ensures !EventsOn(net.book.orders[d], V.React(cfg, net.working[d], V.PollIn, now).events, now).1
    {
      PollAccepted(cfg, net.book.orders[d], net.working[d], now);
    }
    VisitPointwise(cfg, net.book, net.ids, net.working, V.PollIn, now);
    DeliverKeepsFated(cfg, now, net, V.PollIn, now, c, deadline);
    var (working, events) := V.Visit(cfg, net.ids, net.working, V.PollIn, now);
    var b' := ApplyAll(net.book, events, now).book;
    hide V.Visit, ApplyAll;
    assert Visited(cfg, net.ids, V.PollIn, now, c, net.book.orders[c], Look(net.working, c), b'.orders[c],
                   Look(working, c), Total(events, c));
    if c in net.working { PollAccepted(cfg, net.book.orders[c], net.working[c], now); }
  }

  lemma LinkedKnown(cfg: V.Config, sent: Time, net: Net)
    requires Linked(cfg, sent, net)
    ensures Known(net.book, net.working)
  {
    forall c | c in net.working ensures net.working[c].req.coid == c {
      assert LinkedOne(cfg, sent, net.book.orders[c], net.working[c]);
    }
  }

  lemma TickKeepsFated(cfg: V.Config, net: Net, now: Time, c: string, deadline: Time)
    requires Linked(cfg, net.tick, net) && net.tick <= now && Fated(net, c, deadline)
    ensures Fated(Tick(net, cfg, now).0, c, deadline)
    ensures deadline <= now ==>
              (Terminal(Tick(net, cfg, now).0.book.orders[c].state)
               <==> Terminal(net.book.orders[c].state) || c in net.working)
  {
    SweptLinked(cfg, net, now);
    SweepKeepsFated(cfg, net, now, c, deadline);
    var mid := Swept(net, cfg, now);
    hide Swept, Deliver, Linked, Terminal;
    DeliverKeepsFated(cfg, now, mid, V.PollIn, now, c, deadline);
    if deadline <= now { PollEnds(cfg, mid, now, c, deadline); }
  }

  lemma NextKeepsFated(cfg: V.Config, net: Net, cap: Option<real>, e: Event, c: string, deadline: Time)
    requires Linked(cfg, net.tick, net) && Ordered(net, e) && Fated(net, c, deadline)
    ensures WellFormed(net.book) && Fated(Next(net, cap, cfg, e).0, c, deadline)
  {
    hide WellFormed, Deliver, Tick, LinkedAll;
    match e
    case Submits(_, _, _, _, _, _, _) => SubmitAdds(net, cap, cfg, e);
    case Market(input, now) =>
      DeliverLinked(cfg, net.tick, net, input, now);
      DeliverKeepsFated(cfg, net.tick, net, input, now, c, deadline);
      TickKeepsFated(cfg, Deliver(net, cfg, input, now).0, now, c, deadline);
    case Ticks(now) => TickKeepsFated(cfg, net, now, c, deadline);
    hide Submit;
  }

  lemma {:induction false} SessionKeepsFated(cfg: V.Config, net: Net, cap: Option<real>, events: seq<Event>, net': Net,
                                             c: string, deadline: Time)
    requires Linked(cfg, net.tick, net) && Proceeds(net, cap, cfg, events, net') && Fated(net, c, deadline)
    ensures Linked(cfg, net'.tick, net') && Fated(net', c, deadline)
    decreases |events|
  {
    hide Linked, Next, WellFormed, Ordered, Fated;
    if events != [] {
      NextLinked(cfg, net, cap, events[0]);
      NextKeepsFated(cfg, net, cap, events[0], c, deadline);
      SessionKeepsFated(cfg, Next(net, cap, cfg, events[0]).0, cap, events[1..], net', c, deadline);
    }
  }

  /** Orders leave NEW before anything else happens. */
  ghost predicate Marked(net: Net) { forall c :: c in net.book.orders ==> net.book.orders[c].state != New }

  lemma SweptMarked(cfg: V.Config, net: Net, now: Time, mid: Net)
    requires Marked(net) && SweptPointwise(net, cfg, now, mid)
    ensures Marked(mid)
  {
    hide WellFormed, A.SweptWorking;
    forall c | c in mid.book.orders ensures mid.book.orders[c].state != New {
      assert mid.book.orders[c] == A.SweptOrder(net.book.orders[c], now);
    }
    hide Accumulate;
  }

  lemma NextMarked(cfg: V.Config, net: Net, cap: Option<real>, e: Event)
    requires Linked(cfg, net.tick, net) && Ordered(net, e) && Marked(net)
    ensures WellFormed(net.book) && Marked(Next(net, cap, cfg, e).0)
  {
    hide WellFormed, Deliver, Swept, LinkedAll, SweptPointwise;
    match e
    case Submits(_, _, _, _, _, _, _) => SubmitAdds(net, cap, cfg, e);
    case Market(input, now) =>
      DeliverLinked(cfg, net.tick, net, input, now);
      TickMarked(cfg, Deliver(net, cfg, input, now).0, now);
    case Ticks(now) => TickMarked(cfg, net, now);
    hide Submit, Tick;
  }

  lemma TickMarked(cfg: V.Config, net: Net, now: Time)
    requires Linked(cfg, net.tick, net) && net.tick <= now && Marked(net)
    ensures Marked(Tick(net, cfg, now).0)
  {
    SweptLinked(cfg, net, now);
    SweptMarked(cfg, net, now, Swept(net, cfg, now));
    DeliverLinked(cfg, now, Swept(net, cfg, now), V.PollIn, now);
    hide WellFormed, Deliver, Swept, LinkedAll, SweptPointwise;
  }

  lemma {:induction false} SessionMarked(cfg: V.Config, net: Net, cap: Option<real>, events: seq<Event>, net': Net)
    requires Linked(cfg, net.tick, net) && Marked(net) && Proceeds(net, cap, cfg, events, net')
    ensures Marked(net')
    decreases |events|
  {
    hide Linked, Next, WellFormed, Ordered, Marked;
    if events != [] {
      NextLinked(cfg, net, cap, events[0]);
      NextMarked(cfg, net, cap, events[0]);
      SessionMarked(cfg, Next(net, cap, cfg, events[0]).0, cap, events[1..], net');
    }
  }

  /**
   An order overdue at one tick is closed by a tick a cancel latency later if and only if it was closed before
   that tick or the venue still works it.  This holds in every session, however far apart its ticks are and
   whatever reports were refused in it.
   */
  lemma OverdueEndsIffWorked(cap: Option<real>, cfg: V.Config, t0: Time, before: seq<Event>, net1: Net, t1: Time,
                             between: seq<Event>, net2: Net, t2: Time, c: string)
    requires Proceeds(Start(t0), cap, cfg, before, net1) && net1.tick <= t1
    requires c in net1.book.orders && Overdue(net1.book.orders[c], t1)
    requires Proceeds(Tick(net1, cfg, t1).0, cap, cfg, between, net2) && net2.tick <= t2 && t1 + cfg.cancelLatency <= t2
    ensures c in net2.book.orders && c in Tick(net2, cfg, t2).0.book.orders
    ensures Terminal(Tick(net2, cfg, t2).0.book.orders[c].state)
            <==> Terminal(net2.book.orders[c].state) || c in net2.working
  {
    FatedAfter(cap, cfg, t0, before, net1, t1, c);
    var net := Tick(net1, cfg, t1).0;
    var deadline := t1 + cfg.cancelLatency;
    hide Tick, Linked, Proceeds, Terminal;
    SessionKeepsFated(cfg, net, cap, between, net2, c, deadline);
    TickKeepsFated(cfg, net2, t2, c, deadline);
  }

  lemma FatedAfter(cap: Option<real>, cfg: V.Config, t0: Time, before: seq<Event>, net1: Net, t1: Time, c: string)
    requires Proceeds(Start(t0), cap, cfg, before, net1) && net1.tick <= t1
    requires c in net1.book.orders && Overdue(net1.book.orders[c], t1)
    ensures var net := Tick(net1, cfg, t1).0;
            Linked(cfg, net.tick, net) && net.tick == t1 && Fated(net, c, t1 + cfg.cancelLatency)
  {
    StartLinked(cfg, t0);
    hide Linked, Proceeds, Swept, Deliver, Overdue;
    SessionLinked(cfg, Start(t0), cap, before, net1);
    SessionMarked(cfg, Start(t0), cap, before, net1);
    SweepFates(cfg, net1, t1, c);
    SweptLinked(cfg, net1, t1);
    DeliverKeepsFated(cfg, t1, Swept(net1, cfg, t1), V.PollIn, t1, c, t1 + cfg.cancelLatency);
    TickLinked(cfg, net1, t1);
    hide Fated;
  }

  // ----- lost orders

  lemma DeliverElsewhere(cfg: V.Config, sent: Time, net: Net, input: V.Input, now: Time, c: string)
    requires Linked(cfg, sent, net) && c in net.book.orders && c !in net.working
    ensures var net' := Deliver(net, cfg, input, now).0;
            c in net'.book.orders && net'.book.orders[c] == net.book.orders[c] && c !in net'.working
  {
    LinkedKnown(cfg, sent, net);
    VisitKeeps(cfg, net.ids, net.working, input, now);
    var events := V.Visit(cfg, net.ids, net.working, input, now).1;
    hide V.Visit, ApplyAll, WellFormed, LinkedAll;
    EventsElsewhere(net.book, events, now, c);
  }

  lemma SweptKeepsLost(cfg: V.Config, o: ManagedOrder, now: Time)
    requires !Terminal(o.state) && o.state !in {New, Submitting}
    ensures !Terminal(A.SweptOrder(o, now).state) && A.SweptOrder(o, now).state !in {New, Submitting}
    ensures A.SweptWorking(cfg, o, None, now).None?
  {
    hide Accumulate;
  }

  lemma TickKeepsLost(cfg: V.Config, net: Net, now: Time, c: string)
    requires Linked(cfg, net.tick, net) && net.tick <= now && Lost(net, c)
    ensures Lost(Tick(net, cfg, now).0, c)
  {
    SweptLinked(cfg, net, now);
    SweptPair(cfg, net, now, c);
    SweptKeepsLost(cfg, net.book.orders[c], now);
    var mid := Swept(net, cfg, now);
    hide Swept, Deliver, Linked, SweptPointwise, A.SweptOrder, Terminal;
    DeliverElsewhere(cfg, now, mid, V.PollIn, now, c);
  }

  lemma NextKeepsLost(cfg: V.Config, net: Net, cap: Option<real>, e: Event, c: string)
    requires Linked(cfg, net.tick, net) && Ordered(net, e) && Lost(net, c)
    ensures WellFormed(net.book) && Lost(Next(net, cap, cfg, e).0, c)
  {
    hide WellFormed, Deliver, Tick, LinkedAll;
    match e
    case Submits(_, _, _, _, _, _, _) => SubmitAdds(net, cap, cfg, e);
    case Market(input, now) =>
      DeliverLinked(cfg, net.tick, net, input, now);
      DeliverElsewhere(cfg, net.tick, net, input, now, c);
      TickKeepsLost(cfg, Deliver(net, cfg, input, now).0, now, c);
    case Ticks(now) => TickKeepsLost(cfg, net, now, c);
    hide Submit;
  }

  /** A lost order never ends: no tick, market data or submission of any session closes it. */
  lemma {:induction false} LostForever(cfg: V.Config, net: Net, cap: Option<real>, events: seq<Event>, net': Net,
                                       c: string)
    requires Linked(cfg, net.tick, net) && Proceeds(net, cap, cfg, events, net') && Lost(net, c)
    ensures Linked(cfg, net'.tick, net') && Lost(net', c)
    decreases |events|
  {
    hide Linked, Next, WellFormed, Ordered, Lost;
    if events != [] {
      NextLinked(cfg, net, cap, events[0]);
      NextKeepsLost(cfg, net, cap, events[0], c);
      LostForever(cfg, Next(net, cap, cfg, events[0]).0, cap, events[1..], net', c);
    }
  }

  /** The venue's side of a pass, order by order. */
  lemma {:induction false} VisitReacts(cfg: V.Config, ids: seq<string>, working: V.WorkingMap, input: V.Input,
                                       now: Time, c: string)
    requires Distinct(ids) && (forall d :: d in working ==> working[d].req.coid == d) && c in ids && c in working
    ensures Look(V.Visit(cfg, ids, working, input, now).0, c) == V.React(cfg, working[c], input, now).order
    decreases |ids|
  {
    hide V.React;
    if ids[0] !in working {
      VisitReacts(cfg, ids[1..], working, input, now, c);
    } else {
      var r := V.React(cfg, working[ids[0]], input, now);
      ReactAbout(cfg, working[ids[0]], input, now);
      var working1 := V.Keep(working, ids[0], r.order);
      if c == ids[0] {
        VisitLeaves(cfg, ids[1..], working1, input, now, c);
      } else {
        VisitReacts(cfg, ids[1..], working1, input, now, c);
      }
    }
  }

  lemma {:induction false} VisitLeaves(cfg: V.Config, ids: seq<string>, working: V.WorkingMap, input: V.Input,
                                       now: Time, c: string)
    requires c !in ids
    ensures Look(V.Visit(cfg, ids, working, input, now).0, c) == Look(working, c)
    decreases |ids|
  {
    hide V.React;
    if ids != [] {
      if ids[0] !in working {
        VisitLeaves(cfg, ids[1..], working, input, now, c);
      } else {
        VisitLeaves(cfg, ids[1..], V.Keep(working, ids[0], V.React(cfg, working[ids[0]], input, now).order), input, now,
                    c);
      }
    }
  }

  lemma {:induction false} RefusedHead(b: Book, first: seq<V.VenueEvent>, rest: seq<V.VenueEvent>, now: Time)
    requires ApplyAll(b, first, now).raised
    ensures ApplyAll(b, first + rest, now) == ApplyAll(b, first, now)
    decreases |first|
  {
    hide ApplyEvent;
    assert (first + rest)[1..] == first[1..] + rest;
    if !ApplyEvent(b, first[0], now).raised {
      RefusedHead(ApplyEvent(b, first[0], now).book, first[1..], rest, now);
    }
  }

  /** In a pass over the given orders, one before c reports something that the manager refuses. */
  ghost predicate RefusedBefore(cfg: V.Config, b: Book, ids: seq<string>, working: V.WorkingMap, input: V.Input,
                                now: Time, c: string)
    decreases |ids|
  {
    && ids != [] && ids[0] != c
    && if ids[0] !in working || ids[0] !in b.orders then RefusedBefore(cfg, b, ids[1..], working, input, now, c) else
       var r := V.React(cfg, working[ids[0]], input, now);
       EventsOn(b.orders[ids[0]], r.events, now).1
       || RefusedBefore(cfg, ApplyAll(b, r.events, now).book, ids[1..], V.Keep(working, ids[0], r.order), input, now, c)
  }

  lemma {:induction false} PassAbandoned(cfg: V.Config, b: Book, ids: seq<string>, working: V.WorkingMap,
                                         input: V.Input, now: Time,
                                         c: string)
    requires Known(b, working) && c in b.orders && Distinct(ids) && RefusedBefore(cfg, b, ids, working, input, now, c)
    ensures var r := ApplyAll(b, V.Visit(cfg, ids, working, input, now).1, now);
            r.raised && c in r.book.orders && r.book.orders[c] == b.orders[c]
    decreases |ids|
  {
    hide V.React, EventsOn, WellFormed, ApplyEvent, V.Keep;
    if ids[0] !in working {
      PassAbandoned(cfg, b, ids[1..], working, input, now, c);
    } else {
      KnownAt(b, working, ids[0]);
      var r := V.React(cfg, working[ids[0]], input, now);
      ReactAbout(cfg, working[ids[0]], input, now);
      AllChangeOnly(b, r.events, ids[0], now);
      var b1, working1 := ApplyAll(b, r.events, now), V.Keep(working, ids[0], r.order);
      var rest := V.Visit(cfg, ids[1..], working1, input, now).1;
      hide ApplyAll;
      if b1.raised {
        RefusedHead(b, r.events, rest, now);
      } else {
        ApplyAllSplit(b, r.events, rest, now);
        KeepKnown(b, working, ids[0], b1, EventsOn(b.orders[ids[0]], r.events, now).0, r.order);
        PassAbandoned(cfg, b1.book, ids[1..], working1, input, now, c);
      }
    }
  }

  /**
   When the report of one order is refused, every acknowledged order visited after it in the same pass is lost
   exactly if it leaves the venue's book in that pass: the report of its end is abandoned.
   */
  lemma RefusalLoses(cfg: V.Config, sent: Time, net: Net, input: V.Input, now: Time, c: string)
    requires Linked(cfg, sent, net) && c in net.ids && c in net.working
    requires RefusedBefore(cfg, net.book, net.ids, net.working, input, now, c)
    requires !Terminal(net.book.orders[c].state) && net.book.orders[c].state != Submitting
    ensures var (net', raised) := Deliver(net, cfg, input, now);
            raised && (Lost(net', c) <==> V.React(cfg, net.working[c], input, now).order.None?)
  {
    LinkedKnown(cfg, sent, net);
    PassAbandoned(cfg, net.book, net.ids, net.working, input, now, c);
    VisitReacts(cfg, net.ids, net.working, input, now, c);
    assert LinkedOne(cfg, sent, net.book.orders[c], net.working[c]);
    hide V.React, WellFormed, LinkedOne, ApplyAll, Terminal, RefusedBefore, V.Visit;
  }

  // ----- sessions without refusals

  /** Every handler returned, and orders have a size. */
  ghost predicate Accepted(net: Net, cap: Option<real>, cfg: V.Config, events: seq<Event>, net': Net)
    decreases |events|
  {
    if events == [] then net' == net else
    && WellFormed(net.book) && Ordered(net, events[0])
    && (events[0].Submits? ==> DUST < events[0].req.quantity)
    && !Next(net, cap, cfg, events[0]).1
    && Accepted(Next(net, cap, cfg, events[0]).0, cap, cfg, events[1..], net')
  }

  lemma {:induction false} AcceptedProceeds(net: Net, cap: Option<real>, cfg: V.Config, events: seq<Event>, net': Net)
    requires Accepted(net, cap, cfg, events, net')
    ensures Proceeds(net, cap, cfg, events, net')
    decreases |events|
  {
    hide Next, WellFormed, Ordered;
    if events != [] { AcceptedProceeds(Next(net, cap, cfg, events[0]).0, cap, cfg, events[1..], net'); }
  }

  /**
    The manager has heard of everything: same fills, and the venue has dropped only what is closed or
    unacknowledged.
   */
  ghost predicate HeardOne(o: ManagedOrder, w: Option<Working>) {
    match w
    case None => Terminal(o.state) || o.state == Submitting
    case Some(w) => VR.Placed(w) && VR.Unfinished(w) && w.filled == o.filledQty
  }

  ghost predicate Heard(net: Net) {
    forall c :: c in net.book.orders ==> HeardOne(net.book.orders[c], Look(net.working, c))
  }

  lemma {:induction false} UnrefusedParts(b: Book, first: seq<V.VenueEvent>, rest: seq<V.VenueEvent>, now: Time)
    requires !ApplyAll(b, first + rest, now).raised
    ensures !ApplyAll(b, first, now).raised
  {
    if ApplyAll(b, first, now).raised { RefusedHead(b, first, rest, now); }
  }

  /** If nothing was refused, nothing that any order reported was. */
  lemma {:induction false} UnrefusedAcceptable(cfg: V.Config, b: Book, ids: seq<string>, working: V.WorkingMap,
                                               input: V.Input, now: Time)
    requires Known(b, working) && Distinct(ids) && !ApplyAll(b, V.Visit(cfg, ids, working, input, now).1, now).raised
    ensures Acceptable(cfg, b, ids, working, input, now)
    decreases |ids|
  {
    hide V.React, EventsOn, WellFormed, ApplyEvent, Known;
    if ids == [] {
    } else if ids[0] !in working {
      UnrefusedAcceptable(cfg, b, ids[1..], working, input, now);
      assert forall c :: c in ids <==> c == ids[0] || c in ids[1..];
    } else {
      KnownAt(b, working, ids[0]);
      var r := V.React(cfg, working[ids[0]], input, now);
      ReactAbout(cfg, working[ids[0]], input, now);
      AllChangeOnly(b, r.events, ids[0], now);
      var r1, working1 := ApplyAll(b, r.events, now), V.Keep(working, ids[0], r.order);
      var rest := V.Visit(cfg, ids[1..], working1, input, now).1;
      hide ApplyAll;
      UnrefusedParts(b, r.events, rest, now);
      ApplyAllSplit(b, r.events, rest, now);
      KeepKnown(b, working, ids[0], r1, EventsOn(b.orders[ids[0]], r.events, now).0, r.order);
      UnrefusedAcceptable(cfg, r1.book, ids[1..], working1, input, now);
      forall c | c in working && c != ids[0]
        ensures c in working1 && working1[c] == working[c]
        ensures c in b.orders && c in r1.book.orders && r1.book.orders[c] == b.orders[c]
      {
        KnownAt(b, working, c);
      }
      AcceptableFromRest(cfg, b, ids, working, input, now, r1.book, working1);
    }
  }

  lemma AcceptableFromRest(cfg: V.Config, b: Book, ids: seq<string>, working: V.WorkingMap, input: V.Input, now: Time,
                           b1: Book, working1: V.WorkingMap)
    requires ids != [] && ids[0] in working && Distinct(ids) && Known(b, working) && Known(b1, working1)
    requires !EventsOn(b.orders[ids[0]], V.React(cfg, working[ids[0]], input, now).events, now).1
    requires Acceptable(cfg, b1, ids[1..], working1, input, now)
    requires forall c :: c in working && c != ids[0] ==>
               c in working1 && working1[c] == working[c] && b1.orders[c] == b.orders[c]
    ensures Acceptable(cfg, b, ids, working, input, now)
  {
    hide V.React, EventsOn, WellFormed;
    forall c | c in working && c in ids
      ensures !EventsOn(b.orders[c], V.React(cfg, working[c], input, now).events, now).1
    {
      if c != ids[0] { assert c in ids[1..] && c in working1; }
    }
  }

  lemma ReactHeard(cfg: V.Config, o: ManagedOrder, w: Working, input: V.Input, now: Time)
    requires HeardOne(o, Some(w)) && w.req == o.request && o.state != New && 0.0 <= cfg.minShares
    requires !EventsOn(o, V.React(cfg, w, input, now).events, now).1
    ensures HeardOne(EventsOn(o, V.React(cfg, w, input, now).events, now).0, V.React(cfg, w, input, now).order)
  {
    var r := V.React(cfg, w, input, now);
    VR.ReactShaped(cfg, w, input, now);
    VR.ReactAccounted(cfg, w, input, now);
    assert |r.events| <= 2;
    hide V.React, EventsOn, EventOn, VR.Placed, VR.AtLimitOrBetter, Accumulate;
    if r.events == [] {
      A.NoEvents(o, now);
    } else {
      var ev := r.events[0];
      EventOnFrame(o, ev, now);
      HeardEvent(o, ev, now);
      if ev.Fills? { assert VR.Executed(r) == Some(ev.fill); }
      if |r.events| == 1 {
        assert r.events == [ev];
        A.EventsOnOne(o, ev, now);
      } else {
        assert r.events == [ev, r.events[1]];
        HeardTwo(o, ev, r.events[1], now);
      }
    }
  }

  /** A report of the venue moves an order that is at the venue as follows, if it is accepted. */
  lemma HeardEvent(o: ManagedOrder, ev: V.VenueEvent, now: Time)
    requires o.state != New && !ev.Rejects?
    ensures var (o', raised) := EventOn(o, ev, now);
            && o'.state != New
            && (ev.CancelAcked? ==> Terminal(o'.state) || o'.state == Submitting)
            && (ev.Fills? && !raised && Left(o.request.quantity, o'.filledQty) <= DUST ==> Terminal(o'.state))
  {
    if ev.Fills? { AccumulateFrame(o, ev.fill.quantity, ev.fill.price); }
    hide Accumulate;
  }

  lemma HeardTwo(o: ManagedOrder, ev: V.VenueEvent, ev': V.VenueEvent, now: Time)
    requires o.state != New && !ev.Rejects? && ev'.CancelAcked? && !EventsOn(o, [ev, ev'], now).1
    ensures var o' := EventsOn(o, [ev, ev'], now).0;
            Terminal(o'.state) || o'.state == Submitting
  {
    HeardEvent(o, ev, now);
    var (o1, raised) := EventOn(o, ev, now);
    HeardEvent(o1, ev', now);
    assert [ev, ev'][1..] == [ev'];
    assert [ev, ev'][0] == ev;
    A.EventsOnOne(o1, ev', now);
    hide EventOn;
  }

  lemma DeliverHeard(cfg: V.Config, sent: Time, net: Net, input: V.Input, now: Time)
    requires Linked(cfg, sent, net) && Heard(net) && 0.0 <= cfg.minShares && !Deliver(net, cfg, input, now).1
    ensures Heard(Deliver(net, cfg, input, now).0)
  {
    LinkedKnown(cfg, sent, net);
    UnrefusedAcceptable(cfg, net.book, net.ids, net.working, input, now);
    VisitPointwise(cfg, net.book, net.ids, net.working, input, now);
    var (working, events) := V.Visit(cfg, net.ids, net.working, input, now);
    var b' := ApplyAll(net.book, events, now).book;
    hide V.Visit, ApplyAll, V.React, EventsOn, WellFormed, HeardOne, LinkedOne, Total, Known;
    forall c | c in b'.orders ensures HeardOne(b'.orders[c], Look(working, c)) {
      assert HeardOne(net.book.orders[c], Look(net.working, c));
      assert Visited(cfg, net.ids, input, now, c, net.book.orders[c], Look(net.working, c), b'.orders[c],
                     Look(working, c),
                     Total(events, c));
      if c in net.working {
        LinkedNotNew(cfg, sent, net, c);
        assert !EventsOn(net.book.orders[c], V.React(cfg, net.working[c], input, now).events, now).1;
        ReactHeard(cfg, net.book.orders[c], net.working[c], input, now);
      }
    }
  }

  lemma LinkedNotNew(cfg: V.Config, sent: Time, net: Net, c: string)
    requires Linked(cfg, sent, net) && c in net.working
    ensures c in net.book.orders && c in net.ids
    ensures net.working[c].req == net.book.orders[c].request && net.book.orders[c].state != New
  {
    assert LinkedOne(cfg, sent, net.book.orders[c], net.working[c]);
    hide WellFormed;
  }

  lemma SweptHeardOne(cfg: V.Config, o: ManagedOrder, w: Option<Working>, now: Time)
    requires HeardOne(o, w)
    ensures HeardOne(A.SweptOrder(o, now), A.SweptWorking(cfg, o, w, now))
  {
    SweptKeepsFills(o, now);
    hide Accumulate;
  }

  lemma SweptHeard(cfg: V.Config, net: Net, now: Time)
    requires Linked(cfg, net.tick, net) && net.tick <= now && Heard(net)
    ensures Heard(Swept(net, cfg, now))
  {
    SweptLinked(cfg, net, now);
    var mid := Swept(net, cfg, now);
    hide Swept, Linked, HeardOne, A.SweptOrder, A.SweptWorking, WellFormed;
    forall c | c in mid.book.orders ensures HeardOne(mid.book.orders[c], Look(mid.working, c)) {
      assert HeardOne(net.book.orders[c], Look(net.working, c));
      SweptHeardOne(cfg, net.book.orders[c], Look(net.working, c), now);
    }
  }

  lemma TickHeard(cfg: V.Config, net: Net, now: Time)
    requires Linked(cfg, net.tick, net) && net.tick <= now && Heard(net) && 0.0 <= cfg.minShares
    requires !Tick(net, cfg, now).1
    ensures Heard(Tick(net, cfg, now).0)
  {
    SweptLinked(cfg, net, now);
    SweptHeard(cfg, net, now);
    hide Swept, Deliver, Linked, HeardOne, SweptPointwise;
    DeliverHeard(cfg, now, Swept(net, cfg, now), V.PollIn, now);
  }

  lemma SubmitHeard(cfg: V.Config, net: Net, cap: Option<real>, e: Event)
    requires WellFormed(net.book) && Heard(net) && e.Submits? && DUST < e.req.quantity
    ensures Heard(Next(net, cap, cfg, e).0)
  {
    SubmitAdds(net, cap, cfg, e);
    var net' := Next(net, cap, cfg, e).0;
    SubmittedHeard(cfg, e.req, e.tif, LastQuote(net, e.req.symbol), e.now);
    hide Next, V.Submitted, V.Without, WellFormed, VR.Placed, VR.Unfinished, Terminal;
    if net' != net {
      forall c | c in net'.book.orders ensures HeardOne(net'.book.orders[c], Look(net'.working, c)) {
        if c != e.req.coid { assert HeardOne(net.book.orders[c], Look(net.working, c)); }
      }
    }
  }

  lemma SubmittedHeard(cfg: V.Config, req: OrderRequest, tif: V.Tif, q: Option<Quote>, now: Time)
    requires DUST < req.quantity
    ensures var w := V.Submitted(cfg, req, tif, q, now); VR.Placed(w) && VR.Unfinished(w) && w.filled == 0.0
  {
    hide V.JoinBehind;
  }

  lemma NextHeard(cfg: V.Config, net: Net, cap: Option<real>, e: Event)
    requires Linked(cfg, net.tick, net) && Ordered(net, e) && Heard(net) && 0.0 <= cfg.minShares
    requires WellFormed(net.book) && !Next(net, cap, cfg, e).1 && (e.Submits? ==> DUST < e.req.quantity)
    ensures Heard(Next(net, cap, cfg, e).0)
  {
    match e
    case Submits(_, _, _, _, _, _, _) => SubmitHeard(cfg, net, cap, e);
    case Market(input, now) =>
      DeliverLinked(cfg, net.tick, net, input, now);
      DeliverHeard(cfg, net.tick, net, input, now);
      TickHeard(cfg, Deliver(net, cfg, input, now).0, now);
    case Ticks(now) => TickHeard(cfg, net, now);
    hide Deliver, Tick, Submit, Linked, HeardOne;
  }

  lemma {:induction false} SessionHeard(cfg: V.Config, net: Net, cap: Option<real>, events: seq<Event>, net': Net)
    requires Linked(cfg, net.tick, net) && Heard(net) && 0.0 <= cfg.minShares && Accepted(net, cap, cfg, events, net')
    ensures Linked(cfg, net'.tick, net') && Heard(net')
    decreases |events|
  {
    hide Linked, Next, WellFormed, Ordered, Heard;
    if events != [] {
      NextLinked(cfg, net, cap, events[0]);
      NextHeard(cfg, net, cap, events[0]);
      SessionHeard(cfg, Next(net, cap, cfg, events[0]).0, cap, events[1..], net');
    }
  }

  /**
   In a session without refusals, with ticks at any times and any time to live: an order overdue at one tick is
   closed by any tick a cancel latency later, even if fills reopen it as partial in between.
   */
  lemma DeadlinesEnd(cap: Option<real>, cfg: V.Config, t0: Time, before: seq<Event>, net1: Net, t1: Time,
                     between: seq<Event>, net2: Net, t2: Time, c: string)
    requires 0.0 <= cfg.minShares && Accepted(Start(t0), cap, cfg, before, net1) && net1.tick <= t1
    requires c in net1.book.orders && Overdue(net1.book.orders[c], t1)
    requires !Tick(net1, cfg, t1).1 && Accepted(Tick(net1, cfg, t1).0, cap, cfg, between, net2)
    requires net2.tick <= t2 && t1 + cfg.cancelLatency <= t2
    ensures c in Tick(net2, cfg, t2).0.book.orders && Terminal(Tick(net2, cfg, t2).0.book.orders[c].state)
  {
    AcceptedProceeds(Start(t0), cap, cfg, before, net1);
    AcceptedProceeds(Tick(net1, cfg, t1).0, cap, cfg, between, net2);
    OverdueEndsIffWorked(cap, cfg, t0, before, net1, t1, between, net2, t2, c);
    FatedAfter(cap, cfg, t0, before, net1, t1, c);
    StartLinked(cfg, t0);
    hide Tick, Linked, Proceeds, Accepted, Overdue;
    SessionHeard(cfg, Start(t0), cap, before, net1);
    TickHeard(cfg, net1, t1);
    SessionHeard(cfg, Tick(net1, cfg, t1).0, cap, between, net2);
    SessionKeepsFated(cfg, Tick(net1, cfg, t1).0, cap, between, net2, c, t1 + cfg.cancelLatency);
    assert HeardOne(net2.book.orders[c], Look(net2.working, c));
  }

  // ----- why ticks should be timely

  /** A passive limit order, with a time to live, as the only order; ticked once; then traded through. */
  function OneOrder(cfg: V.Config, req: OrderRequest, reference: real, risk: real, ttl: Time, t0: Time): Net {
    StartLinked(cfg, t0);
    Next(Start(t0), None, cfg, Submits(req, V.Day, reference, risk, Some(ttl), 0.0, t0)).0
  }

  lemma OneOrderShape(cfg: V.Config, req: OrderRequest, reference: real, risk: real, ttl: Time, t0: Time)
    requires req.orderType.Limit? && req.limitPrice.Some?
    ensures var net, c := OneOrder(cfg, req, reference, risk, ttl, t0), req.coid;
            && Alone(cfg, net, c) && net.tick == t0 && net.working[c] == V.Submitted(cfg, req, V.Day, None, t0)
            && var o := net.book.orders[c];
               o.request == req && o.state == Submitting && o.filledQty == 0.0 && o.expireAt == Some(t0 + ttl)
  {
    hide Linked, Created, Do, WellFormed, V.Submitted;
    var e := Submits(req, V.Day, reference, risk, Some(ttl), 0.0, t0);
    StartLinked(cfg, t0);
    NextLinked(cfg, Start(t0), None, e);
    NothingRefused(req, reference, risk, ttl, t0);
    SubmitAdds(Start(t0), None, cfg, e);
    assert V.Without([], req.coid) + [req.coid] == [req.coid];
  }

  lemma PassiveShape(cfg: V.Config, req: OrderRequest, t0: Time)
    requires req.orderType.Limit? && req.limitPrice.Some?
    ensures var w := V.Submitted(cfg, req, V.Day, None, t0);
            && w.req == req && !w.awaiting && w.limit == req.limitPrice && w.queueAhead == 0.0 && w.filled == 0.0
            && w.activateAt == t0 + (cfg.latency + cfg.extraLatency) && w.cancelAt == None
  {
  }

  /** The only order on both sides. */
  ghost predicate Alone(cfg: V.Config, net: Net, c: string) {
    Linked(cfg, net.tick, net) && net.ids == [c] && net.working.Keys == {c} && c in net.book.orders
  }

  /** Nothing stands against a first order when there is no cap. */
  lemma NothingRefused(req: OrderRequest, reference: real, risk: real, ttl: Time, t0: Time)
    ensures WellFormed(Start(t0).book)
    ensures !Created(Start(t0).book, None, req, reference, risk, Some(ttl), 0.0, t0).raised
  {
  }

  lemma OneOrderTicked(cfg: V.Config, net: Net, c: string, now: Time)
    requires Alone(cfg, net, c) && net.tick <= now
    requires var o := net.book.orders[c]; o.state == Submitting && o.filledQty == 0.0
    ensures var net' := Tick(net, cfg, now).0;
            && Alone(cfg, net', c) && net'.tick == now
            && (net'.working[c] == net.working[c] || net'.working[c] == net.working[c].(acked := true))
            && var o' := net'.book.orders[c];
               && o'.filledQty == 0.0 && o'.state in {Submitting, Acknowledged, Expired}
               && (o'.state == Expired <==> Overdue(net.book.orders[c], now))
  {
    hide Swept, Deliver, Linked, A.SweptWorking, A.SweptOrder, WellFormed, Overdue, SweptPointwise, LinkedOne;
    SweptPair(cfg, net, now, c);
    SweptLinked(cfg, net, now);
    var mid := Swept(net, cfg, now);
    SweptKeepsKeys(cfg, net, now);
    SweptAlone(cfg, net.tick, net.book.orders[c], net.working[c], now);
    assert Look(mid.working, c) == Some(net.working[c]);
    PolledOnly(cfg, mid, c, now);
    TickLinked(cfg, net, now);
  }

  lemma SweptKeepsKeys(cfg: V.Config, net: Net, now: Time)
    requires Linked(cfg, net.tick, net) && net.tick <= now
    ensures var mid := Swept(net, cfg, now);
            mid.ids == net.ids && mid.working.Keys == net.working.Keys && mid.tick == net.tick
  {
    SweptLinked(cfg, net, now);
    hide Swept, WellFormed, A.SweptWorking, A.SweptOrder;
  }

  lemma PolledOnly(cfg: V.Config, mid: Net, c: string, now: Time)
    requires Linked(cfg, now, mid) && mid.ids == [c] && mid.working.Keys == {c} && c in mid.book.orders
    requires var o := mid.book.orders[c];
             mid.working[c].cancelAt.None? && o.filledQty == 0.0 && o.state in {Submitting, Expired}
    ensures var net' := Deliver(mid, cfg, V.PollIn, now).0;
            && net'.ids == [c] && net'.working.Keys == {c} && c in net'.book.orders
            && (net'.working[c] == mid.working[c] || net'.working[c] == mid.working[c].(acked := true))
            && var o' := net'.book.orders[c];
               o'.filledQty == 0.0
               && o'.state in (if mid.book.orders[c].state == Expired then {Expired} else {Submitting, Acknowledged})
  {
    LinkedKnown(cfg, now, mid);
    var o, w := mid.book.orders[c], mid.working[c];
    var r := V.React(cfg, w, V.PollIn, now);
    PolledAlone(cfg, o, w, now);
    VisitOne(cfg, c, mid.working, V.PollIn, now);
    hide V.React, EventsOn, WellFormed, LinkedAll, ApplyAll, V.Visit;
    ReactAbout(cfg, w, V.PollIn, now);
    AllChangeOnly(mid.book, r.events, c, now);
  }

  lemma VisitOne(cfg: V.Config, c: string, working: V.WorkingMap, input: V.Input, now: Time)
    requires c in working
    ensures var r := V.React(cfg, working[c], input, now);
            V.Visit(cfg, [c], working, input, now) == (V.Keep(working, c, r.order), r.events)
  {
    hide V.React;
    var r := V.React(cfg, working[c], input, now);
    assert [c][1..] == [];
    assert r.events + [] == r.events;
  }

  lemma SweptAlone(cfg: V.Config, sent: Time, o: ManagedOrder, w: Working, now: Time)
    requires LinkedOne(cfg, sent, o, w) && o.state == Submitting
    ensures A.SweptWorking(cfg, o, Some(w), now) == Some(w)
    ensures var o' := A.SweptOrder(o, now);
            && o'.request == o.request && o'.filledQty == o.filledQty && w.cancelAt.None?
            && o'.state == if Overdue(o, now) then Expired else Submitting
  {
  }

  lemma PolledAlone(cfg: V.Config, o: ManagedOrder, w: Working, now: Time)
    requires w.cancelAt.None? && o.state in {Submitting, Expired}
    ensures var r := V.React(cfg, w, V.PollIn, now);
            var o' := EventsOn(o, r.events, now).0;
            && (r.order == Some(w) || r.order == Some(w.(acked := true)))
            && o'.request == o.request && o'.filledQty == o.filledQty
            && o'.state in (if o.state == Expired then {Expired} else {Submitting, Acknowledged})
  {
    var r := V.React(cfg, w, V.PollIn, now);
    if r.events == [] {
      A.NoEvents(o, now);
    } else {
      assert r.events == [V.Acked(w.req.coid)];
      A.EventsOnOne(o, V.Acked(w.req.coid), now);
    }
  }

  /** What the manager says to a trade through the limit of the only order. */
  lemma TradedThrough(cfg: V.Config, net: Net, c: string, t: Trade, accepted: set<string>, now: Time)
    requires Alone(cfg, net, c) && net.tick <= now
    requires var w, o := net.working[c], net.book.orders[c];
             && V.Exposed(w, t, now) && V.Through(w, t) && c in accepted && w.filled == 0.0 == o.filledQty
             && o.state in {Submitting, Acknowledged, Expired}
    ensures WellFormed(net.book)
    ensures Next(net, None, cfg, Event.Market(V.TradeIn(t, accepted), now)).1 <==> net.book.orders[c].state == Expired
  {
    LinkedKnown(cfg, net.tick, net);
    var w, o, input := net.working[c], net.book.orders[c], V.TradeIn(t, accepted);
    assert LinkedOne(cfg, net.tick, o, w);
    var r := V.React(cfg, w, input, now);
    assert r.events == [V.FillOf(w, V.Remaining(w), w.limit.value, t.ts)];
    CompletingFill(o, r.events[0], now);
    A.EventsOnOne(o, r.events[0], now);
    VisitOne(cfg, c, net.working, input, now);
    ReactAbout(cfg, w, input, now);
    AllChangeOnly(net.book, r.events, c, now);
    DeliverLinked(cfg, net.tick, net, input, now);
    hide V.React, EventsOn, ApplyAll, WellFormed, LinkedAll, V.Visit;
    PollNeverRaises(cfg, Deliver(net, cfg, input, now).0, now);
  }

  lemma CompletingFill(o: ManagedOrder, ev: V.VenueEvent, now: Time)
    requires ev.Fills? && ev.fill.quantity == Left(o.request.quantity, 0.0) && o.filledQty == 0.0
    requires o.state in {Submitting, Acknowledged, Expired}
    ensures EventOn(o, ev, now).1 <==> o.state == Expired
  {
    AccumulateFrame(o, ev.fill.quantity, ev.fill.price);
    hide Accumulate;
  }

  lemma PollNeverRaises(cfg: V.Config, net: Net, now: Time)
    requires Linked(cfg, net.tick, net) && net.tick <= now
    ensures !Tick(net, cfg, now).1
  {
    SweptLinked(cfg, net, now);
    var mid := Swept(net, cfg, now);
    LinkedKnown(cfg, now, mid);
    hide Swept, WellFormed, V.React, EventsOn, LinkedAll, Known;
    forall d | d in mid.working && d in mid.ids
      ensures !EventsOn(mid.book.orders[d], V.React(cfg, mid.working[d], V.PollIn, now).events, now).1
    {
      PollAccepted(cfg, mid.book.orders[d], mid.working[d], now);
    }
    VisitPointwise(cfg, mid.book, mid.ids, mid.working, V.PollIn, now);
    hide V.Visit, ApplyAll, SweptPointwise;
  }

  /**
   An input the code receives: a limit order with a time to live, one tick, and a trade through the limit, at any
   times in this order.  The handler of the trade raises exactly when the tick came at or after the deadline: the
   manager has expired the order by itself, the venue still works it, and the fill that completes it is refused.
   */
  lemma LateTickBreaksAgreement(cfg: V.Config, req: OrderRequest, reference: real, risk: real, ttl: Time, t0: Time,
                                t1: Time,
                                t: Trade, accepted: set<string>, t2: Time)
    requires req.orderType.Limit? && req.limitPrice.Some? && t0 <= t1 <= t2
    requires t0 + (cfg.latency + cfg.extraLatency) <= t2
    requires t.symbol == req.symbol && req.coid in accepted
    requires if req.side.Buy? then t.price < req.limitPrice.value else t.price > req.limitPrice.value
    ensures var net := Tick(OneOrder(cfg, req, reference, risk, ttl, t0), cfg, t1).0;
            && WellFormed(net.book) && req.coid in net.working && req.coid in net.book.orders
            && (Terminal(net.book.orders[req.coid].state) <==> t0 + ttl <= t1)
            && (Next(net, None, cfg, Event.Market(V.TradeIn(t, accepted), t2)).1 <==> t0 + ttl <= t1)
  {
    hide OneOrder, Linked, Tick, Next, V.Submitted, WellFormed;
    OneOrderShape(cfg, req, reference, risk, ttl, t0);
    PassiveShape(cfg, req, t0);
    var net := OneOrder(cfg, req, reference, risk, ttl, t0);
    OneOrderTicked(cfg, net, req.coid, t1);
    TradedThrough(cfg, Tick(net, cfg, t1).0, req.coid, t, accepted, t2);
  }
}
