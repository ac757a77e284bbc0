/** Sessions that go on after a restart: what becomes of the orders it restored. */
module Restored {
  import opened Wrappers
  import opened RealMath
  import opened Models
  import opened Orders
  import opened OrderManagement
  import opened Protocol
  import opened Engine
  import opened EngineRuns
  import opened EngineSessions
  import DL = Deadlines
  import RC = Recovery
  import I = OrderIds
  import J = Journal
  import V = Venue
  import P = Positions
  import L = PositionLog
  import B = Booking
  import D = Drawdown
  import Z = Sizing
  import F = Fsm
  import S = SessionRuns
  import A = Agreement

  /** Any events at all, from any state. */
  ghost predicate GoesOn(p: Params, s: State, events: seq<Event>, s': State)
    decreases |events|
  {
    if events == [] then s' == s else WellFormed(s.net.book) && GoesOn(p, Next(p, s, events[0]).0, events[1..], s')
  }

  /** The venue works orders of the book, as requested. */
  ghost predicate VenueKnown(net: S.Net) {
    forall d :: d in net.working ==>
      d in net.book.orders && net.working[d].req.coid == d && net.book.orders[d].request == net.working[d].req
  }

  predicate SameKind(r: OrderRequest, r': OrderRequest) { r.symbol == r'.symbol && r.intent == r'.intent }

  /** The order is as it was at first, not at the venue, and no order of its kind has come since. */
  ghost predicate Stuck(b0: Book, s: State, c: string) {
    && WellFormed(s.net.book) && VenueKnown(s.net) && c !in s.net.working
    && c in b0.orders && c in s.net.book.orders && s.net.book.orders[c] == b0.orders[c]
    && forall d :: d in s.net.book.orders && d !in b0.orders ==>
         !SameKind(s.net.book.orders[d].request, b0.orders[c].request)
  }

  /** Open, without a deadline. */
  predicate Undated(o: ManagedOrder) { !Terminal(o.state) && o.expireAt.None? }

  /** A position that nothing at the venue would reduce. */
  ghost predicate HeldFast(s: State, x: string) {
    && x in s.office.desk.positions
    && forall d :: d in s.net.working && s.net.working[d].req.symbol == x ==> s.net.working[d].req.intent.Entry?
  }

  // ----- deliveries

  ghost predicate Beside(events: seq<V.VenueEvent>, b: Book, c: string) {
    forall ev :: ev in events ==>
      && ev.coid != c && ev.coid in b.orders && DL.OwnCoid(ev)
      && (ev.Fills? ==> ev.fill.symbol == b.orders[ev.coid].request.symbol)
  }

  ghost predicate EntriesOnly(events: seq<V.VenueEvent>, b: Book, x: string) {
    forall ev :: ev in events && ev.Fills? && ev.fill.symbol == x && ev.coid in b.orders ==>
      b.orders[ev.coid].request.intent.Entry?
  }

  lemma ReactSymbol(cfg: V.Config, w: V.Working, input: V.Input, now: Time)
    ensures forall ev :: ev in V.React(cfg, w, input, now).events && ev.Fills? ==> ev.fill.symbol == w.req.symbol
  {
    hide V.TakeLimit;
  }

  lemma {:induction false} VisitBeside(cfg: V.Config, ids: seq<string>, working: V.WorkingMap, b: Book, input: V.Input,
                                       now: Time,
                                       c: string)
    requires c !in working
    requires forall d :: d in working ==>
               d in b.orders && working[d].req.coid == d && b.orders[d].request == working[d].req
    ensures Beside(V.Visit(cfg, ids, working, input, now).1, b, c)
    ensures var working' := V.Visit(cfg, ids, working, input, now).0;
            forall d :: d in working' ==> d in working && working'[d].req == working[d].req
    ensures forall ev :: ev in V.Visit(cfg, ids, working, input, now).1 ==> ev.coid in working
    decreases |ids|
  {
    hide V.React;
    if ids != [] {
      if ids[0] !in working {
        VisitBeside(cfg, ids[1..], working, b, input, now, c);
      } else {
        var w := working[ids[0]];
        ReactAbout(cfg, w, input, now);
        ReactSymbol(cfg, w, input, now);
        VisitBeside(cfg, ids[1..], V.Keep(working, ids[0], V.React(cfg, w, input, now).order), b, input, now, c);
      }
    }
  }

  /** An event about another order leaves the order alone, and all requests. */
  lemma HandleBeside(p: Params, b: Book, off: Office, ev: V.VenueEvent, now: Time)
    requires WellFormed(b) && DL.OwnCoid(ev)
    ensures var h := Handle(p, b, off, ev, now);
            DL.DriftsAll(b, h.book) && forall c :: c in b.orders && c != ev.coid ==> h.book.orders[c] == b.orders[c]
  {
    hide WellFormed, ApplyEvent, AllEnded, DL.Drifts, News, FillBooked;
    DL.EventDrifts(b, ev, now);
  }

  /** Only an exit fill of the symbol can close its position. */
  lemma HandleKeeps(p: Params, b: Book, off: Office, ev: V.VenueEvent, now: Time, x: string)
    requires WellFormed(b) && DL.OwnCoid(ev) && x in off.desk.positions
    requires ev.Fills? && ev.fill.symbol == x && ev.coid in b.orders ==> b.orders[ev.coid].request.intent.Entry?
    ensures x in Handle(p, b, off, ev, now).office.desk.positions
  {
    hide WellFormed, ApplyEvent, AllEnded, DL.Drifts, News, FillBooked, Dropped;
    DL.EventDrifts(b, ev, now);
    var b' := ApplyEvent(b, ev, now).book;
    KeyedOrders(b');
    var off' := AllEnded(p, off, b'.orders, News(b, b'), now);
    CallbacksDrop(p, off, b'.orders, News(b, b'), now);
    DroppedDesk(off, off', News(b, b'), b'.orders);
    if ev.Fills? && ev.coid in b.orders {
      DriftRequest(b.orders[ev.coid], b'.orders[ev.coid]);
      BookingKeeps(p, off', b'.orders[ev.coid].request.intent, ev.fill, now, x);
    }
  }

  lemma DroppedDesk(off: Office, off': Office, coids: seq<string>, orders: map<string, ManagedOrder>)
    requires Dropped(off, off', coids, orders)
    ensures off'.desk == off.desk
  {
  }

  lemma DriftRequest(o: ManagedOrder, o': ManagedOrder)
    requires DL.Drifts(o, o')
    ensures o'.request == o.request
  {
  }

  lemma KeyedOrders(b: Book)
    requires WellFormed(b)
    ensures forall c :: c in b.orders ==> b.orders[c].request.coid == c
  {
  }

  lemma BookingKeeps(p: Params, off: Office, intent: Intent, fill: Fill, now: Time, x: string)
    requires (fill.symbol == x ==> intent.Entry?) && x in off.desk.positions
    ensures x in FillBooked(p, off, intent, fill, now).0.desk.positions
  {
    hide P.Opened, P.Added, P.Reduced, P.Close, L.RowOf, F.EntryFilled, D.Next, D.Tallied, F.Closed;
  }

  /** All requests stay through a drift, so what was said of them stays true. */
  lemma BesideOn(events: seq<V.VenueEvent>, b: Book, b': Book, c: string)
    requires Beside(events, b, c) && events != [] && DL.DriftsAll(b, b')
    ensures Beside(events[1..], b', c)
  {
    hide WellFormed, DL.OwnCoid;
    forall ev | ev in events[1..]
      ensures ev in events && ev.coid in b'.orders && b'.orders[ev.coid].request == b.orders[ev.coid].request
    {
      assert ev in events;
      DriftRequest(b.orders[ev.coid], b'.orders[ev.coid]);
    }
  }

  lemma EntriesOnlyOn(events: seq<V.VenueEvent>, b: Book, b': Book, x: string)
    requires EntriesOnly(events, b, x) && events != [] && DL.DriftsAll(b, b')
    ensures EntriesOnly(events[1..], b', x)
  {
    hide WellFormed;
    forall ev | ev in events[1..] && ev.coid in b.orders
      ensures ev in events && b'.orders[ev.coid].request == b.orders[ev.coid].request
    {
      assert ev in events;
      DriftRequest(b.orders[ev.coid], b'.orders[ev.coid]);
    }
  }

  lemma {:induction false} AllBeside(p: Params, b: Book, off: Office, events: seq<V.VenueEvent>, now: Time, c: string)
    requires WellFormed(b) && c in b.orders && Beside(events, b, c)
    ensures var h := HandleAll(p, b, off, events, now); DL.DriftsAll(b, h.book) && h.book.orders[c] == b.orders[c]
    decreases |events|
  {
    hide Handle, WellFormed, DL.Drifts, DL.OwnCoid;
    if events == [] {
      forall o: ManagedOrder ensures DL.Drifts(o, o) { DL.NoDrift(o); }
    } else {
      assert events[0] in events;
      HandleBeside(p, b, off, events[0], now);
      var h := Handle(p, b, off, events[0], now);
      if !h.raised {
        BesideOn(events, b, h.book, c);
        hide Beside;
        AllBeside(p, h.book, h.office, events[1..], now, c);
        DL.DriftsTwice(b, h.book, HandleAll(p, h.book, h.office, events[1..], now).book);
      }
    }
  }

  lemma {:induction false} AllKeep(p: Params, b: Book, off: Office, events: seq<V.VenueEvent>, now: Time, c: string,
                                   x: string)
    requires WellFormed(b) && Beside(events, b, c) && EntriesOnly(events, b, x) && x in off.desk.positions
    ensures x in HandleAll(p, b, off, events, now).office.desk.positions
    decreases |events|
  {
    hide Handle, WellFormed, DL.Drifts, DL.OwnCoid;
    if events != [] {
      assert events[0] in events;
      HandleBeside(p, b, off, events[0], now);
      HandleKeeps(p, b, off, events[0], now, x);
      var h := Handle(p, b, off, events[0], now);
      if !h.raised {
        BesideOn(events, b, h.book, c);
        EntriesOnlyOn(events, b, h.book, x);
        hide Beside, EntriesOnly;
        AllKeep(p, h.book, h.office, events[1..], now, c, x);
      }
    }
  }

  // ----- what every event keeps

  lemma KindsOn(b0: Book, s: State, s': State, c: string)
    requires Stuck(b0, s, c) && DL.DriftsAll(s.net.book, s'.net.book) && s'.net.book.orders[c] == s.net.book.orders[c]
    requires forall d :: d in s'.net.working ==> d in s.net.working && s'.net.working[d].req == s.net.working[d].req
    ensures Stuck(b0, s', c)
  {
    hide WellFormed, DL.Drifts;
    forall d | d in s.net.book.orders ensures s'.net.book.orders[d].request == s.net.book.orders[d].request {
      DriftRequest(s.net.book.orders[d], s'.net.book.orders[d]);
    }
  }

  lemma DeliverStuck(p: Params, b0: Book, s: State, input: V.Input, now: Time, c: string)
    requires Stuck(b0, s, c)
    ensures Stuck(b0, Engine.Deliver(p, s, input, now).0, c)
  {
    hide V.Visit, HandleAll, WellFormed, DL.DriftsAll, Beside;
    VisitBeside(p.venue, s.net.ids, s.net.working, s.net.book, input, now, c);
    var (working, events) := V.Visit(p.venue, s.net.ids, s.net.working, input, now);
    AllBeside(p, s.net.book, s.office, events, now, c);
    KindsOn(b0, s, Engine.Deliver(p, s, input, now).0, c);
    hide Stuck;
  }

  lemma DeliverHeldFast(p: Params, b0: Book, s: State, input: V.Input, now: Time, c: string, x: string)
    requires Stuck(b0, s, c) && HeldFast(s, x)
    ensures HeldFast(Engine.Deliver(p, s, input, now).0, x)
  {
    hide V.Visit, HandleAll, WellFormed;
    VisitBeside(p.venue, s.net.ids, s.net.working, s.net.book, input, now, c);
    var (working, events) := V.Visit(p.venue, s.net.ids, s.net.working, input, now);
    assert EntriesOnly(events, s.net.book, x);
    hide Beside, EntriesOnly;
    AllKeep(p, s.net.book, s.office, events, now, c, x);
  }

  lemma SweptUndated(o: ManagedOrder, now: Time)
    requires Undated(o)
    ensures A.SweptOrder(o, now) == o
  {
  }

  lemma SweptDrifts(o: ManagedOrder, now: Time)
    ensures A.SweptOrder(o, now).request == o.request
  {
    ApplyFrame(o, Ttl, now);
    hide Apply;
  }

  lemma SweptShape(p: Params, s: State, now: Time)
    requires WellFormed(s.net.book) && VenueKnown(s.net)
    ensures var mid := Engine.Swept(p, s, now);
            && WellFormed(mid.net.book) && mid.net.book.orders.Keys == s.net.book.orders.Keys
            && mid.office.desk == s.office.desk
            && mid.net.working.Keys == s.net.working.Keys
            && (forall d :: d in s.net.working ==> mid.net.working[d].req == s.net.working[d].req)
            && (forall d :: d in s.net.book.orders ==>
                  && mid.net.book.orders[d] == A.SweptOrder(s.net.book.orders[d], now)
                  && mid.net.book.orders[d].request == s.net.book.orders[d].request)
  {
    hide Sweep, A.CancelAll, WellFormed, A.SweptOrder, A.SweptWorking, AllEnded, News, Dropped;
    S.SweepIsPointwise(s.net, p.venue, now);
    var net := S.Swept(s.net, p.venue, now);
    KeyedOrders(net.book);
    CallbacksDrop(p, s.office, net.book.orders, News(s.net.book, net.book), now);
    DroppedDesk(s.office, AllEnded(p, s.office, net.book.orders, News(s.net.book, net.book), now),
                News(s.net.book, net.book),
                net.book.orders);
    forall d | d in s.net.book.orders ensures A.SweptOrder(s.net.book.orders[d],
                                                           now).request == s.net.book.orders[d].request {
      SweptDrifts(s.net.book.orders[d], now);
    }
    forall d | d in s.net.working ensures net.working[d].req == s.net.working[d].req {
      assert Look(net.working, d) == A.SweptWorking(p.venue, s.net.book.orders[d], Look(s.net.working, d), now);
      SweptRequest(p.venue, s.net.book.orders[d], s.net.working[d], now);
    }
  }

  lemma SweptRequest(cfg: V.Config, o: ManagedOrder, w: V.Working, now: Time)
    ensures A.SweptWorking(cfg, o, Some(w), now).Some? && A.SweptWorking(cfg, o, Some(w), now).value.req == w.req
  {
  }

  lemma TickStuck(p: Params, b0: Book, s: State, now: Time, c: string)
    requires Stuck(b0, s, c) && Undated(b0.orders[c])
    ensures Stuck(b0, Engine.Tick(p, s, now).0, c)
  {
    hide Engine.Swept, Engine.Deliver, WellFormed, A.SweptOrder, Undated;
    SweptShape(p, s, now);
    SweptUndated(s.net.book.orders[c], now);
    var mid := Engine.Swept(p, s, now);
    assert Stuck(b0, mid, c);
    DeliverStuck(p, b0, mid, V.PollIn, now, c);
  }

  lemma TickHeldFast(p: Params, b0: Book, s: State, now: Time, c: string, x: string)
    requires Stuck(b0, s, c) && Undated(b0.orders[c]) && HeldFast(s, x)
    ensures HeldFast(Engine.Tick(p, s, now).0, x)
  {
    hide Engine.Swept, Engine.Deliver, WellFormed, A.SweptOrder, Undated;
    SweptShape(p, s, now);
    SweptUndated(s.net.book.orders[c], now);
    var mid := Engine.Swept(p, s, now);
    assert Stuck(b0, mid, c);
    DeliverHeldFast(p, b0, mid, V.PollIn, now, c, x);
  }

  lemma FedStuck(p: Params, b0: Book, s: State, input: V.Input, now: Time, c: string)
    requires Stuck(b0, s, c) && Undated(b0.orders[c])
    ensures Stuck(b0, Fed(p, s, input, now).0, c)
  {
    hide Engine.Tick, Engine.Deliver, Stuck, Undated;
    StuckKnown(b0, s, c);
    DeliverStuck(p, b0, s, input, now, c);
    TickStuck(p, b0, Engine.Deliver(p, s, input, now).0, now, c);
  }

  lemma StuckKnown(b0: Book, s: State, c: string)
    requires Stuck(b0, s, c)
    ensures c in b0.orders && WellFormed(s.net.book)
  {
    hide WellFormed;
  }

  lemma FedHeldFast(p: Params, b0: Book, s: State, input: V.Input, now: Time, c: string, x: string)
    requires Stuck(b0, s, c) && c in b0.orders && Undated(b0.orders[c]) && HeldFast(s, x)
    ensures HeldFast(Fed(p, s, input, now).0, x)
  {
    hide Engine.Tick, Engine.Deliver, Stuck, Undated, HeldFast;
    DeliverStuck(p, b0, s, input, now, c);
    DeliverHeldFast(p, b0, s, input, now, c, x);
    TickHeldFast(p, b0, Engine.Deliver(p, s, input, now).0, now, c, x);
  }

  // ----- evaluations

  lemma SentStuck(p: Params, b0: Book, s: State, req: OrderRequest, tif: V.Tif, reference: real, risk: real,
                  ttl: Option<Time>,
                  activation: Time, now: Time, office: Office, c: string)
    requires Stuck(b0, s, c) && !SameKind(req, b0.orders[c].request)
    requires !Created(s.net.book, p.cap, req, reference, risk, ttl, activation, now).raised
    ensures Stuck(b0, Sent(p, s, req, tif, reference, risk, ttl, activation, now, office).0, c)
  {
    hide Sent, Created, WellFormed, V.Submitted, J.Coids;
    SentJoins(p, s, req, tif, reference, risk, ttl, activation, now, office);
    SubmittedRequest(p.venue, req, tif, S.LastQuote(s.net, req.symbol), now);
  }

  lemma SubmittedRequest(cfg: V.Config, req: OrderRequest, tif: V.Tif, q: Option<Quote>, now: Time)
    ensures V.Submitted(cfg, req, tif, q, now).req == req
  {
    hide V.JoinBehind;
  }

  lemma SentHeldFast(p: Params, s: State, req: OrderRequest, tif: V.Tif, reference: real, risk: real, ttl: Option<Time>,
                     activation: Time, now: Time, office: Office, x: string)
    requires WellFormed(s.net.book) && HeldFast(s, x) && office.desk == s.office.desk
    requires (req.symbol == x ==> req.intent.Entry?)
    requires !Created(s.net.book, p.cap, req, reference, risk, ttl, activation, now).raised
    ensures HeldFast(Sent(p, s, req, tif, reference, risk, ttl, activation, now, office).0, x)
  {
    hide Sent, Created, WellFormed, V.Submitted, J.Coids;
    SentJoins(p, s, req, tif, reference, risk, ttl, activation, now, office);
    SubmittedRequest(p.venue, req, tif, S.LastQuote(s.net, req.symbol), now);
  }

  /** While the restored order is open, `_submit_entry` and `_submit_exit` refuse its kind. */
  lemma RefusesKind(b0: Book, s: State, c: string)
    requires Stuck(b0, s, c) && Undated(b0.orders[c])
    ensures b0.orders[c].request.intent.Entry? ==> HasActiveEntry(s.net.book.orders, b0.orders[c].request.symbol)
    ensures b0.orders[c].request.intent.Exit? ==> HasActiveExit(s.net.book.orders, b0.orders[c].request.symbol)
  {
    hide WellFormed;
    var o := s.net.book.orders[c];
    if o.request.intent.Entry? { assert IsActiveEntry(o, o.request.symbol); }
    if o.request.intent.Exit? { assert IsActiveExit(o, o.request.symbol); }
  }

  lemma ExitedStuck(p: Params, b0: Book, s: State, symbol: string, reason: string, date: string, reference: real,
                    now: Time,
                    c: string)
    requires Stuck(b0, s, c) && Undated(b0.orders[c])
    ensures Stuck(b0, Exited(p, s, symbol, reason, date, reference, now).0, c)
  {
    RefusesKind(b0, s, c);
    hide WellFormed, HasActiveExit, HasActiveEntry, Created, Sent, I.NextId, I.Key, VenueKnown;
    if symbol in s.office.desk.positions && !HasActiveExit(s.net.book.orders, symbol) {
      var key := I.Key(date, symbol, Exit);
      var coid, s1 := I.NextId(s.seqs, key), Issue(s, key);
      var req := ExitRequest(symbol, s.office.desk.positions[symbol], coid);
      if !Created(s.net.book, p.cap, req, reference, 0.0, None, p.venue.latency, now).raised {
        SentStuck(p, b0, s1, req, V.Day, reference, 0.0, None, p.venue.latency, now,
                  s1.office.(reasons := s1.office.reasons[coid := reason]), c);
      }
    }
  }

  lemma StuckSameNet(b0: Book, s: State, s': State, c: string)
    requires Stuck(b0, s, c) && s'.net == s.net
    ensures Stuck(b0, s', c)
  {
    hide WellFormed, VenueKnown;
  }

  lemma EntryDiffers(b0: Book, s: State, req: OrderRequest, c: string)
    requires Stuck(b0, s, c) && Undated(b0.orders[c]) && req.intent.Entry?
    requires !HasActiveEntry(s.net.book.orders, req.symbol)
    ensures !SameKind(req, b0.orders[c].request)
  {
    RefusesKind(b0, s, c);
    hide WellFormed, HasActiveEntry, HasActiveExit, VenueKnown;
  }

  lemma EnteredStuck(p: Params, b0: Book, s: State, sig: Signal, d: Decision, reference: real, now: Time, c: string)
    requires Stuck(b0, s, c) && Undated(b0.orders[c]) && WellFormed(s.net.book)
    ensures Stuck(b0, Entered(p, s, sig, d, reference, now).0, c)
  {
    hide WellFormed, HasActiveEntry, Created, Sent, I.NextId, EntryKey, J.Coids, Z.Quantity, Stuck, Undated, Refused,
         SameKind;
    StuckKnown(b0, s, c);
    RefusedNet(p, s, sig.symbol, now);
    StuckSameNet(b0, s, Refused(p, s, sig.symbol, now), c);
    if Z.Sizable(sig) && !HasActiveEntry(s.net.book.orders, sig.symbol) {
      var quantity := Z.Quantity(p.sizing, sig, d.regime, d.volatility, D.Loss(s.office.governor));
      var key := EntryKey(sig, d);
      var coid, s1 := I.NextId(s.seqs, key), Issue(s, key);
      var req := EntryRequest(sig, quantity, d.plan, coid);
      StuckSameNet(b0, s, s1, c);
      RefusedNet(p, s1, sig.symbol, now);
      StuckSameNet(b0, s, Refused(p, s1, sig.symbol, now), c);
      EntryDiffers(b0, s, req, c);
      if !Created(s.net.book, p.cap, req, reference, p.sizing.riskPerTrade, Some(d.plan.ttl), 0.0, now).raised {
        SentStuck(p, b0, s1, req, d.plan.tif, reference, p.sizing.riskPerTrade, Some(d.plan.ttl), 0.0, now,
                  s1.office.(signals := s1.office.signals[coid := sig]), c);
      }
    }
  }

  lemma RefusedNet(p: Params, s: State, symbol: string, now: Time)
    ensures Refused(p, s, symbol, now).net == s.net
  {
  }

  lemma EvaluatedStuck(p: Params, b0: Book, s: State, q: Quote, d: Decision, now: Time, c: string)
    requires Stuck(b0, s, c) && WellFormed(s.net.book) && c in b0.orders && Undated(b0.orders[c])
    ensures Stuck(b0, Evaluated(p, s, q, d, now).0, c)
  {
    hide WellFormed, Exited, Entered, F.StepTrack, Undated, VenueKnown;
    if WantsExit(s, q, d) || d.emergency {
      ExitedStuck(p, b0, s, q.symbol, if WantsExit(s, q, d) then d.exit.value else "emergency_flatten", d.date, Mid(q),
                  now, c);
    } else if !d.blocked {
      var (s', sig) := Stepped(p, s, d);
      if sig.Some? { EnteredStuck(p, b0, s', sig.value, d, Mid(q), now, c); }
    }
  }

  lemma ExitedHeldFast(p: Params, s: State, symbol: string, reason: string, date: string, reference: real, now: Time,
                       x: string)
    requires WellFormed(s.net.book) && HeldFast(s, x) && HasActiveExit(s.net.book.orders, x)
    ensures HeldFast(Exited(p, s, symbol, reason, date, reference, now).0, x)
  {
    hide WellFormed, HasActiveExit, Created, Sent, I.NextId, I.Key;
    if symbol in s.office.desk.positions && !HasActiveExit(s.net.book.orders, symbol) {
      var key := I.Key(date, symbol, Exit);
      var coid, s1 := I.NextId(s.seqs, key), Issue(s, key);
      var req := ExitRequest(symbol, s.office.desk.positions[symbol], coid);
      if !Created(s.net.book, p.cap, req, reference, 0.0, None, p.venue.latency, now).raised {
        SentHeldFast(p, s1, req, V.Day, reference, 0.0, None, p.venue.latency, now,
                     s1.office.(reasons := s1.office.reasons[coid := reason]), x);
      }
    }
  }

  lemma EnteredHeldFast(p: Params, s: State, sig: Signal, d: Decision, reference: real, now: Time, x: string)
    requires WellFormed(s.net.book) && HeldFast(s, x)
    ensures HeldFast(Entered(p, s, sig, d, reference, now).0, x)
  {
    hide WellFormed, HasActiveEntry, Created, Sent, I.NextId, EntryKey, J.Coids, Z.Quantity;
    if Z.Sizable(sig) {
      var quantity := Z.Quantity(p.sizing, sig, d.regime, d.volatility, D.Loss(s.office.governor));
      var key := EntryKey(sig, d);
      var coid, s1 := I.NextId(s.seqs, key), Issue(s, key);
      var req := EntryRequest(sig, quantity, d.plan, coid);
      if !Created(s.net.book, p.cap, req, reference, p.sizing.riskPerTrade, Some(d.plan.ttl), 0.0, now).raised {
        SentHeldFast(p, s1, req, d.plan.tif, reference, p.sizing.riskPerTrade, Some(d.plan.ttl), 0.0, now,
                     s1.office.(signals := s1.office.signals[coid := sig]), x);
      }
    }
  }

  lemma EvaluatedHeldFast(p: Params, s: State, q: Quote, d: Decision, now: Time, x: string)
    requires WellFormed(s.net.book) && HeldFast(s, x) && HasActiveExit(s.net.book.orders, x)
    ensures HeldFast(Evaluated(p, s, q, d, now).0, x)
  {
    hide WellFormed, Exited, Entered, F.StepTrack, HasActiveExit;
    if WantsExit(s, q, d) || d.emergency {
      ExitedHeldFast(p, s, q.symbol, if WantsExit(s, q, d) then d.exit.value else "emergency_flatten", d.date, Mid(q),
                     now, x);
    } else if !d.blocked {
      var (s', sig) := Stepped(p, s, d);
      if sig.Some? { EnteredHeldFast(p, s', sig.value, d, Mid(q), now, x); }
    }
  }

  // ----- sessions after a restart

  lemma NextStuck(p: Params, b0: Book, s: State, e: Event, c: string)
    requires Stuck(b0, s, c) && c in b0.orders && Undated(b0.orders[c]) && WellFormed(s.net.book)
    ensures Stuck(b0, Next(p, s, e).0, c)
  {
    hide Stuck, Undated, WellFormed, Fed, Evaluated, Engine.Tick;
    match e
    case QuoteComes(q, decision, now) =>
      FedStuck(p, b0, s, V.QuoteIn(q), now, c);
      var s1 := Fed(p, s, V.QuoteIn(q), now).0;
      StuckKnown(b0, s1, c);
      if decision.Some? { EvaluatedStuck(p, b0, s1, q, decision.value, now, c); }
    case TradeComes(t, accepted, now) => FedStuck(p, b0, s, V.TradeIn(t, accepted), now, c);
    case TimerFires(now) => TickStuck(p, b0, s, now, c);
  }

  lemma NextHeldFast(p: Params, b0: Book, s: State, e: Event, c: string)
    requires Stuck(b0, s, c) && c in b0.orders && Undated(b0.orders[c]) && WellFormed(s.net.book)
    requires b0.orders[c].request.intent.Exit? && HeldFast(s, b0.orders[c].request.symbol)
    ensures HeldFast(Next(p, s, e).0, b0.orders[c].request.symbol)
  {
    hide Stuck, Undated, WellFormed, Fed, Evaluated, Engine.Tick, HeldFast, HasActiveExit;
    var x := b0.orders[c].request.symbol;
    match e
    case QuoteComes(q, decision, now) =>
      FedStuck(p, b0, s, V.QuoteIn(q), now, c);
      FedHeldFast(p, b0, s, V.QuoteIn(q), now, c, x);
      var s1 := Fed(p, s, V.QuoteIn(q), now).0;
      StuckKnown(b0, s1, c);
      RefusesKind(b0, s1, c);
      if decision.Some? { EvaluatedHeldFast(p, s1, q, decision.value, now, x); }
    case TradeComes(t, accepted, now) => FedHeldFast(p, b0, s, V.TradeIn(t, accepted), now, c, x);
    case TimerFires(now) => TickHeldFast(p, b0, s, now, c, x);
  }

  lemma {:induction false} SessionStuck(p: Params, b0: Book, s: State, events: seq<Event>, s': State, c: string)
    requires GoesOn(p, s, events, s') && Stuck(b0, s, c) && c in b0.orders && Undated(b0.orders[c])
    ensures Stuck(b0, s', c)
    decreases |events|
  {
    hide Stuck, Undated, WellFormed, Next;
    if events != [] {
      NextStuck(p, b0, s, events[0], c);
      SessionStuck(p, b0, Next(p, s, events[0]).0, events[1..], s', c);
    }
  }

  lemma {:induction false} SessionHeldFast(p: Params, b0: Book, s: State, events: seq<Event>, s': State, c: string)
    requires GoesOn(p, s, events, s') && Stuck(b0, s, c) && c in b0.orders && Undated(b0.orders[c])
    requires b0.orders[c].request.intent.Exit? && HeldFast(s, b0.orders[c].request.symbol)
    ensures HeldFast(s', b0.orders[c].request.symbol)
    decreases |events|
  {
    hide Stuck, Undated, WellFormed, Next, HeldFast;
    if events != [] {
      NextStuck(p, b0, s, events[0], c);
      NextHeldFast(p, b0, s, events[0], c);
      SessionHeldFast(p, b0, Next(p, s, events[0]).0, events[1..], s', c);
    }
  }

  lemma RestoredUndated(p: Params, files: State, s: State, c: string)
    requires RC.RestartedFrom(p, files, s) && c in s.net.book.orders
    ensures Undated(s.net.book.orders[c]) && Stuck(s.net.book, s, c)
  {
    hide WellFormed, J.Latest, L.RebuiltBook, D.DayOf;
  }

  /**
   An order that a restart restored never ends: through every session of the new process, with any events at any
   times, it keeps its state and its fills, and no other order of its symbol and intent is ever created.
   */
  lemma RestoredNeverEnds(p: Params, files: State, s: State, events: seq<Event>, s': State, c: string, d: string)
    requires RC.RestartedFrom(p, files, s) && GoesOn(p, s, events, s')
    requires c in s.net.book.orders
    ensures !Terminal(s.net.book.orders[c].state)
    ensures c in s'.net.book.orders && s'.net.book.orders[c] == s.net.book.orders[c] && c !in s'.net.working
    ensures d in s'.net.book.orders && d !in s.net.book.orders ==>
              !SameKind(s'.net.book.orders[d].request, s.net.book.orders[c].request)
  {
    hide GoesOn, WellFormed, VenueKnown, RC.RestartedFrom;
    RestoredUndated(p, files, s, c);
    SessionStuck(p, s.net.book, s, events, s', c);
  }

  /** A position with a restored exit is never closed by any session of the new process. */
  lemma RestoredExitHoldsPosition(p: Params, files: State, s: State, events: seq<Event>, s': State, c: string)
    requires RC.RestartedFrom(p, files, s) && GoesOn(p, s, events, s')
    requires c in s.net.book.orders && s.net.book.orders[c].request.intent.Exit?
    requires s.net.book.orders[c].request.symbol in s.office.desk.positions
    ensures s.net.book.orders[c].request.symbol in s'.office.desk.positions
  {
    hide GoesOn, Stuck, Undated;
    RestoredUndated(p, files, s, c);
    RestartedFast(p, files, s, s.net.book.orders[c].request.symbol);
    hide RC.RestartedFrom;
    SessionHeldFast(p, s.net.book, s, events, s', c);
  }

  lemma RestartedFast(p: Params, files: State, s: State, x: string)
    requires RC.RestartedFrom(p, files, s) && x in s.office.desk.positions
    ensures HeldFast(s, x)
  {
    hide Reopened, L.RebuiltBook, D.DayOf;
  }
}
