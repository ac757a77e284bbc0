/** What becomes of exits: on which side they trade, how much, and how they end, over every session. */
module Exits {
  import opened Wrappers
  import opened RealMath
  import opened Models
  import opened Orders
  import opened OrderManagement
  import opened Protocol
  import opened Engine
  import opened EngineRuns
  import opened EngineSessions
  import opened Acceptance
  import I = OrderIds
  import J = Journal
  import Z = Sizing
  import V = Venue
  import VR = VenueRuns
  import P = Positions
  import L = PositionLog
  import B = Booking
  import F = Fsm
  import D = Drawdown
  import S = SessionRuns
  import A = Agreement

  // ----- what a visit of the venue can report

  /** An event the order may cause: a fill of what is left, or the cancel of an order that can be cancelled. */
  predicate Due(ev: V.VenueEvent, w: Working) {
    && (ev.Fills? ==> ev.fill.side == w.req.side && 0.0 <= ev.fill.quantity <= V.Remaining(w))
    && (ev.CancelAcked? ==> !w.tif.Day? || w.cancelAt.Some?)
  }

  /** No order is filled twice. */
  ghost predicate Once(events: seq<V.VenueEvent>) {
    forall i, j :: 0 <= i < j < |events| && events[i].Fills? && events[j].Fills? ==> events[i].coid != events[j].coid
  }

  predicate SurvivesAs(w: Working, w': Working, filled: real) {
    w'.filled == w.filled + filled && w'.tif == w.tif && w'.cancelAt == w.cancelAt
  }

  lemma ReactDue(cfg: V.Config, w: Working, input: V.Input, now: Time)
    requires VR.Placed(w) && 0.0 <= cfg.minShares
    ensures var r := V.React(cfg, w, input, now);
            && (forall ev :: ev in r.events ==> ev.coid == w.req.coid && Due(ev, w)) && Once(r.events)
            && (r.order.Some? ==> SurvivesAs(w, r.order.value, Total(r.events, w.req.coid)))
  {
    VR.ReactSound(cfg, w, input, now);
    ReactAbout(cfg, w, input, now);
    if w.tif.Day? && w.cancelAt.None? { ReactCancels(cfg, w, input, now); }
    var r := V.React(cfg, w, input, now);
    TotalOfOne(r, w.req.coid);
    hide V.React, VR.Placed, VR.AtLimitOrBetter, Total;
    forall ev | ev in r.events ensures ev.coid == w.req.coid && Due(ev, w) {
      if ev.Fills? { assert r.events[0] == ev; }
    }
  }

  lemma ReactCancels(cfg: V.Config, w: Working, input: V.Input, now: Time)
    requires w.tif.Day? && w.cancelAt.None?
    ensures forall ev :: ev in V.React(cfg, w, input, now).events ==> !ev.CancelAcked?
  {
    hide V.Takes, V.TouchPrice;
  }

  lemma TotalOfOne(r: V.Reaction, c: string)
    requires forall i :: 0 < i < |r.events| ==> !r.events[i].Fills?
    requires forall ev :: ev in r.events ==> ev.coid == c
    ensures Total(r.events, c) == match VR.Executed(r) case None => 0.0 case Some(f) => f.quantity
  {
    if r.events != [] { NoFills(r.events[1..], c); }
  }

  lemma {:induction false} NoFills(events: seq<V.VenueEvent>, c: string)
    requires forall ev :: ev in events ==> !ev.Fills?
    ensures Total(events, c) == 0.0
    decreases |events|
  {
    if events != [] {
      assert events[0] in events;
      NoFills(events[1..], c);
    }
  }

  ghost predicate Filed(working: V.WorkingMap) {
    forall c :: c in working ==> working[c].req.coid == c && VR.Placed(working[c])
  }

  ghost predicate AllDue(ids: seq<string>, working: V.WorkingMap, events: seq<V.VenueEvent>) {
    forall ev :: ev in events ==> ev.coid in ids && ev.coid in working && Due(ev, working[ev.coid])
  }

  /** Every event is due, no order is filled twice, and what stays has counted what was reported. */
  ghost predicate Met(ids: seq<string>, working: V.WorkingMap, working': V.WorkingMap, events: seq<V.VenueEvent>) {
    && AllDue(ids, working, events) && Once(events)
    && (forall c :: c in working' ==> c in working && SurvivesAs(working[c], working'[c], Total(events, c)))
  }

  lemma KeepFiled(cfg: V.Config, working: V.WorkingMap, c: string, input: V.Input, now: Time)
    requires Filed(working) && c in working && 0.0 <= cfg.minShares
    ensures Filed(V.Keep(working, c, V.React(cfg, working[c], input, now).order))
  {
    VR.ReactAccounted(cfg, working[c], input, now);
    hide V.React, VR.Placed;
  }

  lemma {:induction false} SilentElsewhere(ids: seq<string>, working: V.WorkingMap, events: seq<V.VenueEvent>,
                                           c: string)
    requires AllDue(ids, working, events) && c !in ids
    ensures Total(events, c) == 0.0
    decreases |events|
  {
    hide Due;
    if events != [] {
      assert events[0] in events;
      SilentElsewhere(ids, working, events[1..], c);
    }
  }

  /** The first order's events, then those of all others. */
  lemma MetSplit(c: string, rest: seq<string>, working: V.WorkingMap, r: V.Reaction, working2: V.WorkingMap,
                 events2: seq<V.VenueEvent>)
    requires c !in rest && c in working && Met(rest, V.Keep(working, c, r.order), working2, events2)
    requires (forall ev :: ev in r.events ==> ev.coid == c && Due(ev, working[c])) && Once(r.events)
    requires r.order.Some? ==> SurvivesAs(working[c], r.order.value, Total(r.events, c))
    ensures Met([c] + rest, working, working2, r.events + events2)
  {
    hide Due, Total;
    OnceSplit(c, rest, V.Keep(working, c, r.order), r.events, events2);
    forall d | d in working2 ensures d in working && SurvivesAs(working[d], working2[d], Total(r.events + events2, d)) {
      TotalSplit(r.events, events2, d);
      if d == c { SilentElsewhere(rest, V.Keep(working, c, r.order), events2, c); } else { SilentOne(r.events, c, d); }
    }
    hide Once;
    forall ev | ev in r.events + events2
      ensures ev.coid in [c] + rest && ev.coid in working && Due(ev, working[ev.coid])
    {
      if ev in r.events { } else { assert ev in events2 && ev.coid in rest; }
    }
  }

  lemma OnceSplit(c: string, rest: seq<string>, working: V.WorkingMap, first: seq<V.VenueEvent>,
                  second: seq<V.VenueEvent>)
    requires Once(first) && Once(second) && AllDue(rest, working, second) && c !in rest
    requires forall ev :: ev in first ==> ev.coid == c
    ensures Once(first + second)
  {
    hide Due;
    var all := first + second;
    forall i, j | 0 <= i < j < |all| && all[i].Fills? && all[j].Fills? ensures all[i].coid != all[j].coid {
      if j < |first| {
        assert first[i].coid != first[j].coid;
      } else if i < |first| {
        assert first[i] in first && second[j - |first|] in second;
      } else {
        assert second[i - |first|].coid != second[j - |first|].coid;
      }
    }
  }

  lemma {:induction false} SilentOne(events: seq<V.VenueEvent>, c: string, d: string)
    requires d != c && forall ev :: ev in events ==> ev.coid == c
    ensures Total(events, d) == 0.0
    decreases |events|
  {
    if events != [] {
      assert events[0] in events;
      SilentOne(events[1..], c, d);
    }
  }

  lemma MetSkip(c: string, rest: seq<string>, working: V.WorkingMap, working2: V.WorkingMap, events: seq<V.VenueEvent>)
    requires Met(rest, working, working2, events)
    ensures Met([c] + rest, working, working2, events)
  {
    hide Due, Total, Once;
  }

  lemma MetNothing(working: V.WorkingMap)
    ensures Met([], working, working, [])
  {
  }

  lemma {:induction false} VisitMeets(cfg: V.Config, ids: seq<string>, working: V.WorkingMap, input: V.Input, now: Time)
    requires Filed(working) && Distinct(ids) && 0.0 <= cfg.minShares
    ensures var (working', events) := V.Visit(cfg, ids, working, input, now); Met(ids, working, working', events)
    decreases |ids|
  {
    hide V.React, Met, V.Keep;
    if ids == [] {
      MetNothing(working);
    } else {
      var c, rest := ids[0], ids[1..];
      assert ids == [c] + rest;
      if c !in working {
        VisitMeets(cfg, rest, working, input, now);
        var (working2, events) := V.Visit(cfg, rest, working, input, now);
        MetSkip(c, rest, working, working2, events);
      } else {
        var r := V.React(cfg, working[c], input, now);
        FiledAt(working, c);
        ReactDue(cfg, working[c], input, now);
        KeepFiled(cfg, working, c, input, now);
        hide Filed, Due, SurvivesAs, Once, Total;
        VisitMeets(cfg, rest, V.Keep(working, c, r.order), input, now);
        var (working2, events2) := V.Visit(cfg, rest, V.Keep(working, c, r.order), input, now);
        MetSplit(c, rest, working, r, working2, events2);
      }
    }
  }

  lemma FiledAt(working: V.WorkingMap, c: string)
    requires Filed(working) && c in working
    ensures working[c].req.coid == c && VR.Placed(working[c])
  {
    hide VR.Placed;
  }

  // ----- the invariant

  predicate OpenExit(o: ManagedOrder) { o.request.intent.Exit? && !Terminal(o.state) }

  /** An exit has no deadline and ends only by being filled. */
  predicate EndsFilled(o: ManagedOrder) {
    o.request.intent.Exit? ==> o.expireAt.None? && (Terminal(o.state) ==> o.state == Filled && Remaining(o) <= DUST)
  }

  ghost predicate AllEndFilled(b: Book) { forall c :: c in b.orders ==> EndsFilled(b.orders[c]) }

  /** An open exit is for the opposite of a held position, and what is left of it is no more than what is held. */
  predicate Opposing(o: ManagedOrder, h: P.Holdings) {
    var x := o.request.symbol;
    x in h && o.request.side != h[x].side && Remaining(o) <= h[x].quantity
  }

  ghost predicate Opposed(b: Book, h: P.Holdings) {
    forall c :: c in b.orders && OpenExit(b.orders[c]) ==> Opposing(b.orders[c], h)
  }

  /** An exit in the log, against what was held at that moment. */
  predicate Reduces(lots: L.Lots, row: L.Row) {
    row.symbol in lots && row.side != lots[row.symbol].side && row.quantity <= lots[row.symbol].quantity
  }

  ghost predicate RowsOppose(rows: seq<L.Row>) {
    forall i :: 0 <= i < |rows| && !rows[i].entry ==> Reduces(L.Replay(rows[..i]), rows[i])
  }

  ghost predicate Ordinary(closed: seq<P.ClosedTrade>) { forall t :: t in closed ==> t.reason == "exit" }

  predicate Managing(tracks: F.Tracks, x: string) { x in tracks && tracks[x].state.Manage? }

  ghost predicate ManagedHeld(off: Office) {
    forall x :: Managing(off.tracks, x) ==> x in off.desk.positions
  }

  ghost predicate Orderly(b: Book, off: Office) {
    && AllEndFilled(b) && Opposed(b, off.desk.positions) && RowsOppose(off.desk.rows) && Ordinary(off.desk.closed)
    && ManagedHeld(off)
  }

  // ----- one order, one event

  /** The event fits the order as the manager has it. */
  predicate Ready(ev: V.VenueEvent, o: ManagedOrder) {
    && (ev.Fills? ==> ev.fill.side == o.request.side)
    && (ev.Fills? && o.request.intent.Exit? ==> OpenExit(o) && 0.0 <= ev.fill.quantity <= Remaining(o))
    && (ev.CancelAcked? ==> !o.request.intent.Exit?)
  }

  function Filling(ev: V.VenueEvent): real { if ev.Fills? then ev.fill.quantity else 0.0 }

  lemma EventExit(o: ManagedOrder, ev: V.VenueEvent, now: Time)
    requires Ready(ev, o) && EndsFilled(o) && !ev.Rejects? && (ev.Fills? ==> o.state != New)
    ensures var (o', raised) := EventOn(o, ev, now);
            && o'.request == o.request && EndsFilled(o')
            && (OpenExit(o') ==> OpenExit(o) && Remaining(o') <= Remaining(o) - Filling(ev))
            && (o.request.intent.Exit? && ev.Fills? ==> !raised && (Terminal(o'.state) <==> Remaining(o') <= DUST)
                                                        && Remaining(o') <= Remaining(o) - Filling(ev))
  {
    EventOnFrame(o, ev, now);
    if ev.Fills? {
      AccumulateFrame(o, ev.fill.quantity, ev.fill.price);
      ExitFill(o, ev.fill.quantity, ev.fill.price, now);
    }
    hide Accumulate;
  }

  lemma ExitFill(o: ManagedOrder, quantity: real, price: real, now: Time)
    requires o.request.intent.Exit? ==> OpenExit(o) && 0.0 <= quantity <= Remaining(o) && o.state != New
    ensures var s := Apply(o, Execution(quantity, price), now);
            o.request.intent.Exit? ==>
              && !s.raised && (Terminal(s.order.state) <==> Remaining(s.order) <= DUST)
              && Remaining(s.order) == Remaining(o) - quantity && s.order.expireAt == o.expireAt
  {
    AccumulateFrame(o, quantity, price);
    hide Accumulate;
  }

  // ----- one event, the whole book

  lemma OpposedQuiet(b: Book, b': Book, h: P.Holdings)
    requires b'.orders.Keys == b.orders.Keys && Opposed(b, h)
    requires forall c :: c in b.orders ==> Weaker(b.orders[c], b'.orders[c])
    ensures Opposed(b', h)
  {
    hide Remaining;
    forall c | c in b'.orders && OpenExit(b'.orders[c]) ensures Opposing(b'.orders[c], h) {
      assert Weaker(b.orders[c], b'.orders[c]);
    }
  }

  /** Whatever is an open exit afterwards was one before, with no less to fill. */
  predicate Weaker(o: ManagedOrder, o': ManagedOrder) {
    && o'.request == o.request
    && (OpenExit(o') ==> OpenExit(o) && Remaining(o') <= Remaining(o))
  }

  // ----- bookings

  lemma RowsNext(rows: seq<L.Row>, row: L.Row)
    requires RowsOppose(rows) && (!row.entry ==> Reduces(L.Replay(rows), row))
    ensures RowsOppose(rows + [row])
  {
    hide L.Replay, Reduces;
    var all := rows + [row];
    forall i | 0 <= i < |all| && !all[i].entry ensures Reduces(L.Replay(all[..i]), all[i]) {
      if i < |rows| { assert all[..i] == rows[..i]; } else { assert all[..i] == rows; }
    }
  }

  /** The callbacks lead no symbol into MANAGE. */
  lemma {:induction false} CallbacksManage(p: Params, off: Office, orders: map<string, ManagedOrder>,
                                           coids: seq<string>, now: Time)
    ensures forall x :: Managing(AllEnded(p, off, orders, coids, now).tracks, x) ==> Managing(off.tracks, x)
  {
    if coids != [] { CallbacksManage(p, off, orders, coids[..|coids| - 1], now); }
  }

  /** An exit closed by this fill: the reason has gone with the order, so the default is recorded. */
  lemma ExitOffice(p: Params, off: Office, fill: Fill, now: Time)
    requires fill.symbol in off.desk.positions && off.desk.positions[fill.symbol].symbol == fill.symbol
    requires ManagedHeld(off)
    ensures var off' := FillBooked(p, off, Exit, fill, now).0;
            var h, left := off.desk.positions, off.desk.positions[fill.symbol].quantity - fill.quantity;
            && off'.desk.rows == off.desk.rows + [L.RowOf(false, fill, None)] && ManagedHeld(off')
            && (DUST < left ==>
                  && off'.desk.closed == off.desk.closed && fill.symbol in off'.desk.positions
                  && off'.desk.positions.Keys == h.Keys
                  && (forall y :: y in h && y != fill.symbol ==> off'.desk.positions[y] == h[y])
                  && off'.desk.positions[fill.symbol].side == h[fill.symbol].side
                  && (0.0 <= left ==> off'.desk.positions[fill.symbol].quantity == left))
            && (left <= DUST ==>
                  && off'.desk.positions == h - {fill.symbol} && |off'.desk.closed| == |off.desk.closed| + 1
                  && off'.desk.closed[..|off.desk.closed|] == off.desk.closed
                  && off'.desk.closed[|off.desk.closed|].reason == Reason(off, fill.coid))
  {
    hide D.Next, D.Tallied, P.Pnl, P.Value;
  }

  lemma EntryOffice(p: Params, off: Office, fill: Fill, now: Time)
    requires ManagedHeld(off) && !FillBooked(p, off, Entry, fill, now).1 && 0.0 <= fill.quantity
    ensures var off' := FillBooked(p, off, Entry, fill, now).0;
            var h, h' := off.desk.positions, off'.desk.positions;
            && ManagedHeld(off') && off'.desk.closed == off.desk.closed
            && (off'.desk.rows == off.desk.rows
                || exists row: L.Row :: row.entry && off'.desk.rows == off.desk.rows + [row])
            && (forall y :: y in h ==> y in h' && h'[y].side == h[y].side && h[y].quantity <= h'[y].quantity)
  {
    hide P.Average;
    var off' := FillBooked(p, off, Entry, fill, now).0;
    if off'.desk.rows != off.desk.rows {
      var row := off'.desk.rows[|off.desk.rows|];
      assert row.entry && off'.desk.rows == off.desk.rows + [row];
    }
  }

  lemma OpposedGrown(b: Book, h: P.Holdings, h': P.Holdings)
    requires Opposed(b, h)
    requires forall y :: y in h ==> y in h' && h'[y].side == h[y].side && h[y].quantity <= h'[y].quantity
    ensures Opposed(b, h')
  {
    hide Remaining, OpenExit;
    forall c | c in b.orders && OpenExit(b.orders[c]) ensures Opposing(b.orders[c], h') {
      assert Opposing(b.orders[c], h);
    }
  }

  lemma EntryOrderly(p: Params, b: Book, off: Office, fill: Fill, now: Time)
    requires Orderly(b, off) && !FillBooked(p, off, Entry, fill, now).1 && 0.0 <= fill.quantity
    ensures Orderly(b, FillBooked(p, off, Entry, fill, now).0)
  {
    hide AllEndFilled, Opposed, RowsOppose, ManagedHeld, FillBooked;
    EntryOffice(p, off, fill, now);
    var off' := FillBooked(p, off, Entry, fill, now).0;
    OpposedGrown(b, off.desk.positions, off'.desk.positions);
    if row: L.Row :| row.entry && off'.desk.rows == off.desk.rows + [row] { RowsNext(off.desk.rows, row); }
  }

  /** What is held of a symbol, in the book and in the log. */
  lemma HeldLot(d: B.Desk, x: string)
    requires Held(d) && x in d.positions
    ensures x in L.Replay(d.rows) && L.Replay(d.rows)[x].side == d.positions[x].side
    ensures L.Replay(d.rows)[x].quantity == d.positions[x].quantity && d.positions[x].symbol == x
  {
    assert L.Mirrors(x, d.positions[x], L.Replay(d.rows)[x]);
  }

  /** Before the booking of an exit fill, its order is already reduced, or closed. */
  ghost predicate AboutToBook(b: Book, off: Office, c: string, fill: Fill) {
    var h, x := off.desk.positions, fill.symbol;
    && c in b.orders && b.orders[c].request.symbol == x && x in h && fill.side != h[x].side
    && fill.quantity <= h[x].quantity
    && (Terminal(b.orders[c].state) <==> Remaining(b.orders[c]) <= DUST)
    && Remaining(b.orders[c]) <= h[x].quantity - fill.quantity
    && (forall d :: d in b.orders && d != c && OpenExit(b.orders[d]) ==>
          b.orders[d].request.symbol != x && Opposing(b.orders[d], h))
    && (Terminal(b.orders[c].state) ==> fill.coid !in off.reasons)
    && (OpenExit(b.orders[c]) ==> b.orders[c].request.side == fill.side)
  }

  /** The parts of the invariant that do not concern open exits. */
  ghost predicate Booked(b: Book, off: Office) {
    AllEndFilled(b) && RowsOppose(off.desk.rows) && Ordinary(off.desk.closed) && ManagedHeld(off)
  }

  lemma ExitBookedOrderly(p: Params, b: Book, off: Office, c: string, fill: Fill, now: Time)
    requires Booked(b, off) && Held(off.desk) && AboutToBook(b, off, c, fill)
    ensures Orderly(b, FillBooked(p, off, Exit, fill, now).0)
  {
    hide AllEndFilled, RowsOppose, ManagedHeld, FillBooked, Held, Remaining, L.Replay;
    var x := fill.symbol;
    HeldLot(off.desk, x);
    ExitOffice(p, off, fill, now);
    var off' := FillBooked(p, off, Exit, fill, now).0;
    RowsNext(off.desk.rows, L.RowOf(false, fill, None));
    var left := off.desk.positions[x].quantity - fill.quantity;
    forall d | d in b.orders && OpenExit(b.orders[d]) ensures Opposing(b.orders[d], off'.desk.positions) {
      if d != c { assert b.orders[d].request.symbol != x; }
    }
    OrdinaryNext(off, off', fill, left);
  }

  lemma OrdinaryNext(off: Office, off': Office, fill: Fill, left: real)
    requires Ordinary(off.desk.closed)
    requires DUST < left ==> off'.desk.closed == off.desk.closed
    requires left <= DUST ==>
               && |off'.desk.closed| == |off.desk.closed| + 1
               && off'.desk.closed[..|off.desk.closed|] == off.desk.closed
               && off'.desk.closed[|off.desk.closed|].reason == Reason(off, fill.coid) && fill.coid !in off.reasons
    ensures Ordinary(off'.desk.closed)
  {
    if left <= DUST {
      assert off'.desk.closed == off.desk.closed + [off'.desk.closed[|off.desk.closed|]];
    }
  }

  // ----- handling one event

  lemma EventOpposed(b: Book, ev: V.VenueEvent, now: Time, h: P.Holdings)
    requires WellFormed(b) && ev.coid in b.orders && Fits(ev, b) && !ev.Rejects? && Ready(ev, b.orders[ev.coid])
    requires AllEndFilled(b)
    ensures var r := ApplyEvent(b, ev, now);
            && WellFormed(r.book) && AllEndFilled(r.book) && r.book.orders.Keys == b.orders.Keys
            && (forall d :: d in b.orders && d != ev.coid ==> r.book.orders[d] == b.orders[d])
            && (ev.Fills? && b.orders[ev.coid].request.intent.Exit? ==> !r.raised)
            && r.book.orders[ev.coid].request == b.orders[ev.coid].request
            && var o, o' := b.orders[ev.coid], r.book.orders[ev.coid];
               && (OpenExit(o') ==> OpenExit(o) && Remaining(o') <= Remaining(o) - Filling(ev))
               && (o.request.intent.Exit? && ev.Fills? ==>
                     (Terminal(o'.state) <==> Remaining(o') <= DUST) && Remaining(o') <= Remaining(o) - Filling(ev))
  {
    EventExit(b.orders[ev.coid], ev, now);
    EventChangesOnly(b, ev, ev.coid, now);
    hide EventOn, ApplyEvent, WellFormed, EndsFilled, Remaining;
  }

  lemma QuietOrderly(p: Params, b: Book, b': Book, off: Office, ev: V.VenueEvent, now: Time)
    requires WellFormed(b) && ev.coid in b.orders && Fits(ev, b) && !ev.Rejects? && Ready(ev, b.orders[ev.coid])
    requires Orderly(b, off) && b' == ApplyEvent(b, ev, now).book && Progress(b, b')
    requires ev.Fills? ==> !b.orders[ev.coid].request.intent.Exit?
    ensures Orderly(b', AllEnded(p, off, b'.orders, News(b, b'), now))
  {
    CallbacksKept(p, b, b', off, now);
    EventOpposed(b, ev, now, off.desk.positions);
    hide ApplyEvent, AllEnded, News, WellFormed, AllEndFilled, RowsOppose, Ordinary, ManagedHeld, Progress, Remaining;
    forall c | c in b.orders ensures Weaker(b.orders[c], b'.orders[c]) { }
    OpposedQuiet(b, b', off.desk.positions);
    hide Opposed;
  }

  lemma CallbacksKept(p: Params, b: Book, b': Book, off: Office, now: Time)
    requires ManagedHeld(off) && Progress(b, b')
    ensures var off' := AllEnded(p, off, b'.orders, News(b, b'), now); ManagedHeld(off') && off'.desk == off.desk
  {
    CallbacksManage(p, off, b'.orders, News(b, b'), now);
    CallbacksDrop(p, off, b'.orders, News(b, b'), now);
    hide AllEnded, News;
  }

  lemma ApartExits(b: Book, c: string, d: string)
    requires Alone(b) && c in b.orders && d in b.orders && c != d && OpenExit(b.orders[c]) && OpenExit(b.orders[d])
    ensures b.orders[c].request.symbol != b.orders[d].request.symbol
  {
    assert !Rivals(b.orders[c], b.orders[d]);
  }

  lemma EndedUnpending(p: Params, b: Book, off: Office, c: string)
    requires PendingSound(p, b, off)
    ensures c in b.orders && Terminal(b.orders[c].state) ==> c !in off.reasons
  {
    hide Backs, Terminal;
  }

  lemma OpposedAt(b: Book, h: P.Holdings, c: string)
    requires Opposed(b, h) && c in b.orders && OpenExit(b.orders[c])
    ensures Opposing(b.orders[c], h)
  {
  }

  lemma ExitReady(b: Book, off: Office, ev: V.VenueEvent)
    requires ev.coid in b.orders && Ready(ev, b.orders[ev.coid]) && ev.Fills? && Opposed(b, off.desk.positions)
    requires b.orders[ev.coid].request.intent.Exit?
    ensures OpenExit(b.orders[ev.coid]) && Opposing(b.orders[ev.coid], off.desk.positions)
    ensures ev.fill.side == b.orders[ev.coid].request.side && ev.fill.quantity <= Remaining(b.orders[ev.coid])
  {
    hide Opposing;
  }

  lemma FillAbout(p: Params, b: Book, b': Book, off: Office, off': Office, ev: V.VenueEvent, now: Time)
    requires WellFormed(b) && ev.coid in b.orders && Fits(ev, b) && Ready(ev, b.orders[ev.coid]) && ev.Fills?
    requires b.orders[ev.coid].request.intent.Exit? && Alone(b) && AllEndFilled(b) && Opposed(b, off.desk.positions)
    requires b' == ApplyEvent(b, ev, now).book && off'.desk == off.desk && PendingSound(p, b', off')
    ensures AboutToBook(b', off', ev.coid, ev.fill)
  {
    EventOpposed(b, ev, now, off.desk.positions);
    hide ApplyEvent, WellFormed, AllEndFilled, Remaining, Alone, Terminal, PendingSound, Opposed, Ready, AboutToBook,
         Opposing;
    EndedUnpending(p, b', off', ev.coid);
    ExitReady(b, off, ev);
    BookingFacts(b, b', off', ev.coid, ev.fill);
  }

  lemma BookingFacts(b: Book, b': Book, off: Office, c: string, fill: Fill)
    requires Alone(b) && Opposed(b, off.desk.positions) && c in b.orders && OpenExit(b.orders[c])
    requires Opposing(b.orders[c], off.desk.positions)
    requires fill.coid == c && fill.symbol == b.orders[c].request.symbol && fill.side == b.orders[c].request.side
    requires fill.quantity <= Remaining(b.orders[c])
    requires b'.orders.Keys == b.orders.Keys && b'.orders[c].request == b.orders[c].request
    requires forall d :: d in b.orders && d != c ==> b'.orders[d] == b.orders[d]
    requires Terminal(b'.orders[c].state) <==> Remaining(b'.orders[c]) <= DUST
    requires Remaining(b'.orders[c]) <= Remaining(b.orders[c]) - fill.quantity
    requires Terminal(b'.orders[c].state) ==> c !in off.reasons
    ensures AboutToBook(b', off, c, fill)
  {
    hide Remaining, Alone, Terminal, Opposed;
    forall d | d in b'.orders && d != c && OpenExit(b'.orders[d])
      ensures b'.orders[d].request.symbol != fill.symbol && Opposing(b'.orders[d], off.desk.positions)
    {
      OpposedAt(b, off.desk.positions, d);
      ApartExits(b, c, d);
    }
  }

  /** Taken or refused, an event leaves exits and positions in order. */
  lemma HandleOrderly(p: Params, b: Book, off: Office, ev: V.VenueEvent, now: Time)
    requires WellFormed(b) && Sound(p, b, off) && Alone(b) && Orderly(b, off)
    requires ev.coid in b.orders && Fits(ev, b) && !ev.Rejects? && Ready(ev, b.orders[ev.coid])
    ensures var h := Handle(p, b, off, ev, now); Orderly(h.book, h.office)
  {
    var b' := ApplyEvent(b, ev, now).book;
    EventProgress(b, ev, now);
    EventOpposed(b, ev, now, off.desk.positions);
    CallbacksKept(p, b, b', off, now);
    SoundPending(p, b, off);
    CallbacksPending(p, b, b', off, now);
    HandleSound(p, b, off, ev, now);
    hide WellFormed, Sound, Alone, ApplyEvent, AllEnded, News, FillBooked, Progress, AllEndFilled, Opposed, RowsOppose,
         Ordinary, ManagedHeld, PendingSound, AboutToBook, Remaining;
    var off' := AllEnded(p, off, b'.orders, News(b, b'), now);
    var intent := b.orders[ev.coid].request.intent;
    if !(ev.Fills? && intent.Exit?) { QuietOrderly(p, b, b', off, ev, now); }
    if ev.Fills? && !ApplyEvent(b, ev, now).raised {
      if intent.Exit? {
        FillAbout(p, b, b', off, off', ev, now);
        SoundHeld(p, b, off);
        ExitBookedOrderly(p, b', off', ev.coid, ev.fill, now);
      } else {
        AloneAt(b, ev.coid);
        EntryOrderly(p, b', off', ev.fill, now);
      }
    }
  }

  lemma SoundPending(p: Params, b: Book, off: Office)
    requires Sound(p, b, off)
    ensures PendingSound(p, b, off)
  {
    hide PendingSound, EntriesHeld, TracksPriced, DeskSound;
  }

  lemma SoundHeld(p: Params, b: Book, off: Office)
    requires Sound(p, b, off)
    ensures Held(off.desk)
  {
    hide PendingSound, EntriesHeld, TracksPriced, Held, MoneySound;
  }

  lemma AloneAt(b: Book, c: string)
    requires Alone(b) && c in b.orders
    ensures !b.orders[c].request.intent.Flatten?
  {
    hide Rivals;
  }

  // ----- all events of a visit

  ghost predicate AllReady(events: seq<V.VenueEvent>, b: Book) {
    forall ev :: ev in events ==> ev.coid in b.orders && Ready(ev, b.orders[ev.coid])
  }

  lemma AckKeepsOpen(o: ManagedOrder, ev: V.VenueEvent, now: Time)
    requires ev.Acked?
    ensures var o' := EventOn(o, ev, now).0;
            o'.request == o.request && (OpenExit(o') <==> OpenExit(o)) && o'.filledQty == o.filledQty
  {
  }

  lemma ReadyNext(events: seq<V.VenueEvent>, b: Book, now: Time)
    requires events != [] && WellFormed(b) && AllReady(events, b) && Once(events) && Fitting(events, b)
    ensures AllReady(events[1..], ApplyEvent(b, events[0], now).book) && Once(events[1..])
  {
    var ev0 := events[0];
    assert ev0 in events;
    EventChangesOnly(b, ev0, ev0.coid, now);
    EventOnFrame(b.orders[ev0.coid], ev0, now);
    if ev0.Acked? { AckKeepsOpen(b.orders[ev0.coid], ev0, now); }
    hide ApplyEvent, WellFormed, EventOn, OpenExit, Fits;
    var b1 := ApplyEvent(b, ev0, now).book;
    forall ev | ev in events[1..] ensures ev.coid in b1.orders && Ready(ev, b1.orders[ev.coid]) {
      assert ev in events;
      if ev.coid == ev0.coid && ev.Fills? {
        var j :| 1 <= j < |events| && events[j] == ev;
        assert !ev0.Fills?;
      }
    }
  }

  /** The manager has counted no more than was reported. */
  ghost predicate CountedUpTo(b: Book, b': Book, events: seq<V.VenueEvent>) {
    && b'.orders.Keys == b.orders.Keys
    && forall c :: c in b.orders ==> b'.orders[c].filledQty <= b.orders[c].filledQty + Total(events, c)
  }

  lemma {:induction false} TotalNonnegative(events: seq<V.VenueEvent>, b: Book, c: string)
    requires Fitting(events, b)
    ensures 0.0 <= Total(events, c)
    decreases |events|
  {
    if events != [] {
      assert events[0] in events;
      TotalNonnegative(events[1..], b, c);
    }
  }

  lemma CountedOne(events: seq<V.VenueEvent>, b: Book, now: Time)
    requires events != [] && WellFormed(b) && Fitting(events, b)
    ensures var b1 := ApplyEvent(b, events[0], now).book;
            && b1.orders.Keys == b.orders.Keys
            && (forall c :: c in b.orders ==>
                  b1.orders[c].filledQty + Total(events[1..], c) <= b.orders[c].filledQty + Total(events, c))
  {
    var ev := events[0];
    assert ev in events;
    EventChangesOnly(b, ev, ev.coid, now);
    EventOnFrame(b.orders[ev.coid], ev, now);
    hide ApplyEvent, WellFormed, EventOn;
  }

  lemma {:induction false} HandleAllOrderly(p: Params, b: Book, off: Office, events: seq<V.VenueEvent>, now: Time)
    requires WellFormed(b) && Sound(p, b, off) && Alone(b) && Orderly(b, off)
    requires Fitting(events, b) && AllReady(events, b) && Once(events)
    ensures var h := HandleAll(p, b, off, events, now); Orderly(h.book, h.office) && CountedUpTo(b, h.book, events)
    decreases |events|
  {
    hide Handle, ApplyEvent, Sound, WellFormed, Fits, Alone, Orderly, Ready, Progress, Once, Total;
    if events == [] {
      CountedNothing(b);
    } else {
      assert events[0] in events;
      var h := Handle(p, b, off, events[0], now);
      HandleSound(p, b, off, events[0], now);
      HandleOrderly(p, b, off, events[0], now);
      CountedOne(events, b, now);
      ReadyNext(events, b, now);
      FittingNext(events, b, h.book);
      EventWellFormed(b, events[0], now);
      ProgressLater(b, h.book);
      LaterAlone(b, h.book);
      if h.raised {
        forall c ensures 0.0 <= Total(events[1..], c) { TotalNonnegative(events[1..], h.book, c); }
      } else {
        HandleAllOrderly(p, h.book, h.office, events[1..], now);
      }
    }
  }

  lemma CountedNothing(b: Book)
    ensures CountedUpTo(b, b, [])
  {
  }

  // ----- handlers

  /** The venue has counted no less than the manager, and what it works as an exit waits without a deadline. */
  predicate BackedOne(o: ManagedOrder, w: Working) {
    o.filledQty <= w.filled && (o.request.intent.Exit? ==> w.tif.Day? && w.cancelAt.None?)
  }

  ghost predicate Backed(b: Book, working: V.WorkingMap) {
    forall c :: c in working ==> c in b.orders && BackedOne(b.orders[c], working[c])
  }

  ghost predicate Disciplined(s: State) {
    Orderly(s.net.book, s.office) && Distinct(s.net.ids) && Backed(s.net.book, s.net.working)
  }

  lemma CarriedFiled(working: V.WorkingMap, b: Book)
    requires Carried(working, b)
    ensures Filed(working)
  {
    hide VR.Placed, VR.Unfinished;
    forall c | c in working ensures working[c].req.coid == c && VR.Placed(working[c]) {
      assert CarriedOne(working[c], b);
    }
  }

  lemma DueReady(b: Book, w: Working, ev: V.VenueEvent)
    requires CarriedOne(w, b) && BackedOne(b.orders[w.req.coid], w) && Due(ev, w) && EndsFilled(b.orders[w.req.coid])
    ensures Ready(ev, b.orders[w.req.coid])
  {
  }

  lemma VisitReady(b: Book, ids: seq<string>, working: V.WorkingMap, events: seq<V.VenueEvent>)
    requires Carried(working, b) && Backed(b, working) && AllEndFilled(b) && AllDue(ids, working, events)
    ensures AllReady(events, b)
  {
    hide CarriedOne, BackedOne, EndsFilled, Due;
    forall ev | ev in events ensures ev.coid in b.orders && Ready(ev, b.orders[ev.coid]) {
      DueReady(b, working[ev.coid], ev);
    }
  }

  lemma BackedAfter(b: Book, b': Book, ids: seq<string>, working: V.WorkingMap, working': V.WorkingMap,
                    events: seq<V.VenueEvent>)
    requires Backed(b, working) && Met(ids, working, working', events) && CountedUpTo(b, b', events) && Later(b, b')
    ensures Backed(b', working')
  {
    hide Total, Once, AllDue, WellFormed, Journals, Terminal;
    forall c | c in working' ensures c in b'.orders && BackedOne(b'.orders[c], working'[c]) {
      assert BackedOne(b.orders[c], working[c]) && Follows(b.orders[c], b'.orders[c]);
    }
  }

  lemma DeliverDisciplined(p: Params, s: State, input: V.Input, now: Time)
    requires Rest(p, s) && Disciplined(s) && DUST < p.venue.minShares
    ensures Disciplined(Engine.Deliver(p, s, input, now).0)
  {
    hide V.Visit, HandleAll, WellFormed, Later, Sound, Carried, Fitting, AllReady, Met, Orderly, Backed, CountedUpTo,
         Alone, IdsCovered, Distinct;
    var (working, events) := V.Visit(p.venue, s.net.ids, s.net.working, input, now);
    CarriedFiled(s.net.working, s.net.book);
    VisitMeets(p.venue, s.net.ids, s.net.working, input, now);
    VisitFits(p.venue, s.net.ids, s.net.working, s.net.book, input, now);
    OrderlyEnds(s.net.book, s.office);
    MetDue(s.net.ids, s.net.working, working, events);
    VisitReady(s.net.book, s.net.ids, s.net.working, events);
    HandleAllSound(p, s.net.book, s.office, events, now);
    HandleAllOrderly(p, s.net.book, s.office, events, now);
    var h := HandleAll(p, s.net.book, s.office, events, now);
    BackedAfter(s.net.book, h.book, s.net.ids, s.net.working, working, events);
  }

  lemma OrderlyEnds(b: Book, off: Office)
    requires Orderly(b, off)
    ensures AllEndFilled(b)
  {
    hide AllEndFilled, Opposed, RowsOppose, Ordinary, ManagedHeld;
  }

  lemma MetDue(ids: seq<string>, working: V.WorkingMap, working': V.WorkingMap, events: seq<V.VenueEvent>)
    requires Met(ids, working, working', events)
    ensures AllDue(ids, working, events) && Once(events)
  {
    hide AllDue, Once;
  }

  // ----- the timer sweep

  lemma SweptExit(o: ManagedOrder, now: Time)
    requires EndsFilled(o)
    ensures var o' := A.SweptOrder(o, now);
            Weaker(o, o') && EndsFilled(o') && o'.filledQty == o.filledQty && o'.request == o.request
    ensures o.request.intent.Exit? ==> !SweptToCancel(o, now)
  {
    ApplyFrame(o, Ttl, now);
  }

  lemma SweptDisciplined(p: Params, s: State, now: Time)
    requires Rest(p, s) && Disciplined(s)
    ensures Disciplined(Engine.Swept(p, s, now))
  {
    hide Sweep, A.CancelAll, WellFormed, Sound, Carried, Alone, IdsCovered, AllEnded, News, Distinct, RowsOppose,
         Ordinary, ManagedHeld, A.SweptOrder, A.SweptWorking, Progress, EndsFilled, Weaker, BackedOne;
    CarriedKnown(s.net.working, s.net.book);
    S.SweepIsPointwise(s.net, p.venue, now);
    SweepProgress(s.net.book, s.net.book.ids, now);
    var net := S.Swept(s.net, p.venue, now);
    CallbacksKept(p, s.net.book, net.book, s.office, now);
    forall c | c in s.net.book.orders
      ensures Weaker(s.net.book.orders[c], net.book.orders[c]) && EndsFilled(net.book.orders[c])
    {
      SweptExit(s.net.book.orders[c], now);
    }
    OpposedQuiet(s.net.book, net.book, s.office.desk.positions);
    hide Opposed;
    forall c | c in net.working ensures c in net.book.orders && BackedOne(net.book.orders[c], net.working[c]) {
      assert Look(net.working, c)
          == A.SweptWorking(p.venue, s.net.book.orders[c], Look(s.net.working, c), now);
      SweptExit(s.net.book.orders[c], now);
      SweptBacked(p.venue, s.net.book.orders[c], s.net.working[c], now);
    }
  }

  lemma SweptBacked(cfg: V.Config, o: ManagedOrder, w: Working, now: Time)
    requires BackedOne(o, w) && EndsFilled(o)
    ensures var w' := A.SweptWorking(cfg, o, Some(w), now);
            w'.Some? && BackedOne(A.SweptOrder(o, now), w'.value)
  {
    SweptExit(o, now);
    hide A.SweptOrder, SweptToCancel, EndsFilled;
  }

  lemma FedDisciplined(p: Params, s: State, input: V.Input, now: Time)
    requires Rest(p, s) && Disciplined(s) && DUST < p.venue.minShares
    ensures Disciplined(Fed(p, s, input, now).0) && Disciplined(Engine.Tick(p, s, now).0)
  {
    hide Engine.Swept, Engine.Deliver, S.Swept, S.Deliver, WellFormed, Rest, Orderly, Backed, Distinct;
    DeliverDisciplined(p, s, input, now);
    DeliverRest(p, s, input, now);
    TickDisciplined(p, Engine.Deliver(p, s, input, now).0, now);
    TickDisciplined(p, s, now);
  }

  lemma TickDisciplined(p: Params, s: State, now: Time)
    requires Rest(p, s) && Disciplined(s) && DUST < p.venue.minShares
    ensures Disciplined(Engine.Tick(p, s, now).0)
  {
    hide Engine.Swept, Engine.Deliver, S.Swept, S.Deliver, WellFormed, Rest, Orderly, Backed, Distinct;
    SweptDisciplined(p, s, now);
    SweptRest(p, s, now);
    DeliverDisciplined(p, Engine.Swept(p, s, now), V.PollIn, now);
  }

  // ----- evaluation

  lemma SameExits(s: State, s': State)
    requires Disciplined(s) && s'.net == s.net && s'.office.desk == s.office.desk && ManagedHeld(s'.office)
    ensures Disciplined(s')
  {
    hide AllEndFilled, Opposed, RowsOppose, Ordinary, ManagedHeld, Distinct, Backed;
  }

  lemma StepManages(c: F.Config, t: F.Track, f: F.Feature, action: GovernorAction, trace: string)
    ensures F.StepTrack(c, t, f, action, trace).0.state.Manage? ==> t.state.Manage?
  {
    hide F.Exhausted, F.NearExtreme, F.BookAgainst, F.SignalOf, F.ImpulseSeen, F.PeersConfirmedFast;
  }

  lemma SteppedDisciplined(p: Params, s: State, d: Decision)
    requires Disciplined(s)
    ensures Disciplined(Stepped(p, s, d).0)
  {
    StepManages(p.fsm, F.TrackOf(s.office.tracks, d.feature.symbol), d.feature, d.action, d.trace);
    hide F.StepTrack;
    var s' := Stepped(p, s, d).0;
    forall x | Managing(s'.office.tracks, x) ensures x in s'.office.desk.positions {
      assert Managing(s.office.tracks, x);
    }
    SameExits(s, s');
  }

  /** A new order keeps discipline, if it is an entry or flattens a position at market. */
  lemma GainsDisciplined(s: State, s': State, c: string, x: string, intent: Intent)
    requires Disciplined(s) && Gains(s, s', c, x, intent) && s'.office.desk == s.office.desk
    requires ManagedHeld(s'.office)
    requires intent.Exit? ==>
               && x in s.office.desk.positions && s'.net.working[c].tif.Day? && s'.net.book.orders[c].expireAt.None?
               && Flattens(s'.net.book.orders[c].request, s.office.desk.positions[x], x)
               && 0.0 < s.office.desk.positions[x].quantity
    requires s'.net.book.orders[c].request.intent == intent
    requires forall d :: d in s.net.working ==> d in s.net.book.orders
    ensures Disciplined(s')
  {
    S.WithoutDistinct(s.net.ids, c);
    hide RowsOppose, Ordinary, V.Without;
    var o := s'.net.book.orders[c];
    if intent.Exit? { FlattensOpposing(o, s.office.desk.positions[x], x); }
    forall d | d in s'.net.book.orders ensures EndsFilled(s'.net.book.orders[d]) {
      if d != c { assert EndsFilled(s.net.book.orders[d]); }
    }
    forall d | d in s'.net.book.orders && OpenExit(s'.net.book.orders[d])
      ensures Opposing(s'.net.book.orders[d], s'.office.desk.positions)
    {
      if d != c { assert Opposing(s.net.book.orders[d], s.office.desk.positions); }
    }
  }

  lemma FlattensOpposing(o: ManagedOrder, pos: P.Position, x: string)
    requires Flattens(o.request, pos, x) && o.filledQty == 0.0 && 0.0 < pos.quantity
    ensures o.request.symbol == x && o.request.side != pos.side && Remaining(o) <= pos.quantity
  {
  }

  lemma ExitedDisciplined(p: Params, s: State, x: string, reason: string, date: string, mid: real, now: Time)
    requires Rest(p, s) && Disciplined(s)
    ensures WellFormed(s.net.book)
    ensures Disciplined(Exited(p, s, x, reason, date, mid, now).0)
  {
    hide Rest, Disciplined, WellFormed, ExitSent, NoneOpen, Room, Commits, Gains, Flattens, HasActiveExit;
    RestBook(p, s);
    var s' := Exited(p, s, x, reason, date, mid, now).0;
    if x in s.office.desk.positions {
      HeldMore(p, s, x);
      ExitOutcome(p, s, x, reason, date, mid, now);
      var pos := s.office.desk.positions[x];
      if c :| Leaves(p, s, s', c, pos, x, reason, mid, now) {
        RestWorks(p, s);
        DisciplinedManaged(s);
        ManagedStays(s.office, s'.office);
        LeavesExit(s, s', c, pos, x, mid, p.venue.latency, now);
        GainsDisciplined(s, s', c, x, Exit);
      } else {
        SameAll(s, s');
      }
    }
  }

  lemma LeavesExit(s: State, s': State, c: string, pos: P.Position, x: string, mid: real, activation: Time, now: Time)
    requires Gains(s, s', c, x, Exit) && Flattens(s'.net.book.orders[c].request, pos, x)
    requires FixedAs(s'.net.book.orders[c], mid, 0.0, None, activation, now)
    ensures s'.net.book.orders[c].request.intent.Exit? && s'.net.book.orders[c].expireAt.None?
  {
    hide Gains;
  }

  lemma SameAll(s: State, s': State)
    requires Disciplined(s) && s'.net == s.net && s'.office == s.office
    ensures Disciplined(s')
  {
    hide Orderly, Distinct, Backed;
  }

  lemma RestWorks(p: Params, s: State)
    requires Rest(p, s)
    ensures forall d :: d in s.net.working ==> d in s.net.book.orders
  {
    CarriedKnown(s.net.working, s.net.book);
    hide Carried, Sound, Alone, IdsCovered, WellFormed;
  }

  lemma ManagedStays(off: Office, off': Office)
    requires ManagedHeld(off) && off'.desk == off.desk
    requires forall x :: Managing(off'.tracks, x) ==> Managing(off.tracks, x)
    ensures ManagedHeld(off')
  {
  }

  lemma DisciplinedManaged(s: State)
    requires Disciplined(s)
    ensures ManagedHeld(s.office)
  {
    hide AllEndFilled, Opposed, RowsOppose, Ordinary, ManagedHeld, Distinct, Backed;
  }

  lemma RefusedManages(p: Params, s: State, x: string, now: Time)
    ensures forall y :: Managing(Refused(p, s, x, now).office.tracks, y) ==> Managing(s.office.tracks, y)
  {
  }

  lemma EntersDisciplined(p: Params, s: State, s': State, c: string, sig: Signal, quantity: real, d: Decision,
                          mid: real, now: Time)
    requires Disciplined(s) && Enters(p, s, s', c, sig, quantity, d, mid, now) && ManagedHeld(s'.office)
    requires forall e :: e in s.net.working ==> e in s.net.book.orders
    ensures Disciplined(s')
  {
    hide Disciplined, FixedAs, Gains, Entering, ManagedHeld;
    GainsDisciplined(s, s', c, sig.symbol, Entry);
  }

  /** An entry, sent or not, leads no symbol into MANAGE. */
  lemma EnteredManages(p: Params, s: State, sig: Signal, d: Decision, mid: real, now: Time)
    requires WellFormed(s.net.book)
    ensures forall y :: Managing(Entered(p, s, sig, d, mid, now).0.office.tracks, y) ==> Managing(s.office.tracks, y)
  {
    hide WellFormed, Created, S.Submit, I.NextId, EntryKey, J.Coids, Z.Quantity, HasActiveEntry, F.EntryFailed, Refused,
         Managing, EntryRequest;
    forall t: State ensures forall y :: Managing(Refused(p, t, sig.symbol, now).office.tracks, y)
                                        ==> Managing(t.office.tracks, y)
    {
      RefusedManages(p, t, sig.symbol, now);
    }
  }

  lemma EnteredDisciplined(p: Params, s: State, sig: Signal, d: Decision, mid: real, now: Time)
    requires RestBut(p, s, sig.symbol) && Entering(s.office.tracks, sig.symbol) && 0.0 < sig.reference && Disciplined(s)
    ensures WellFormed(s.net.book)
    ensures Disciplined(Entered(p, s, sig, d, mid, now).0)
  {
    EntryOutcome(p, s, sig, d, mid, now);
    hide Disciplined, WellFormed, Entered, NoneOpen, Room, Commits, Enters, HasEntry, Alone, IdsCovered, PendingSound,
         DeskSound, TracksPriced, Z.Quantity, ManagedHeld, Entering, Carried;
    var s' := Entered(p, s, sig, d, mid, now).0;
    var quantity := Z.Quantity(p.sizing, sig, d.regime, d.volatility, D.Loss(s.office.governor));
    EnteredManages(p, s, sig, d, mid, now);
    DisciplinedManaged(s);
    if c :| Enters(p, s, s', c, sig, quantity, d, mid, now) {
      EntersDesk(p, s, s', c, sig, quantity, d, mid, now);
      ManagedStays(s.office, s'.office);
      CarriedKnown(s.net.working, s.net.book);
      EntersDisciplined(p, s, s', c, sig, quantity, d, mid, now);
    } else {
      ManagedStays(s.office, s'.office);
      SameExits(s, s');
    }
  }

  lemma EntersDesk(p: Params, s: State, s': State, c: string, sig: Signal, quantity: real, d: Decision, mid: real,
                   now: Time)
    requires Enters(p, s, s', c, sig, quantity, d, mid, now)
    ensures s'.office.desk == s.office.desk
  {
    hide Gains, FixedAs, Opens, Entering;
  }

  lemma EvaluatedDisciplined(p: Params, s: State, q: Quote, d: Decision, now: Time)
    requires Rest(p, s) && Sane(p) && Sensible(p, d) && Disciplined(s)
    ensures WellFormed(s.net.book)
    ensures Disciplined(Evaluated(p, s, q, d, now).0)
  {
    RestBook(p, s);
    hide WellFormed, Rest, RestBut, Exited, Entered, Stepped, Disciplined, Entering, Sane, Sensible;
    if WantsExit(s, q, d) || d.emergency {
      ExitedDisciplined(p, s, q.symbol, if WantsExit(s, q, d) then d.exit.value else "emergency_flatten", d.date,
                        Mid(q), now);
    } else if !d.blocked {
      SteppedDisciplined(p, s, d);
      var (s', sig) := Stepped(p, s, d);
      if sig.Some? {
        SensibleReach(p, d);
        SteppedEntering(p, s, d, sig.value);
        EnteredDisciplined(p, s', sig.value, d, Mid(q), now);
      }
    }
  }

  // ----- sessions

  lemma NextDisciplined(p: Params, s: State, e: Event)
    requires Rest(p, s) && Sane(p) && Decided(p, e) && Disciplined(s)
    ensures WellFormed(s.net.book) && Disciplined(Next(p, s, e).0)
  {
    hide WellFormed, Rest, Sensible, Fed, Evaluated, Engine.Tick, Disciplined;
    RestBook(p, s);
    match e
    case QuoteComes(q, decision, now) =>
      FedRest(p, s, V.QuoteIn(q), now);
      FedDisciplined(p, s, V.QuoteIn(q), now);
      if decision.Some? { EvaluatedDisciplined(p, Fed(p, s, V.QuoteIn(q), now).0, q, decision.value, now); }
    case TradeComes(t, accepted, now) => FedDisciplined(p, s, V.TradeIn(t, accepted), now);
    case TimerFires(now) => FedDisciplined(p, s, V.PollIn, now);
  }

  lemma {:induction false} SessionDisciplined(p: Params, s: State, events: seq<Event>, s': State)
    requires Rest(p, s) && Sane(p) && Session(p, s, events, s') && Disciplined(s)
    ensures Disciplined(s')
    decreases |events|
  {
    hide Rest, Next, WellFormed, Sane, Decided, Disciplined;
    if events != [] {
      NextRest(p, s, events[0]);
      NextDisciplined(p, s, events[0]);
      SessionDisciplined(p, Next(p, s, events[0]).0, events[1..], s');
    }
  }

  lemma StartDisciplined(t0: Time, seqs: map<string, nat>)
    ensures Disciplined(Start(t0, seqs))
  {
  }

  lemma ReachedDisciplined(p: Params, t0: Time, seqs: map<string, nat>, events: seq<Event>, s: State)
    requires Reached(p, t0, seqs, events, s)
    ensures Disciplined(s)
  {
    StartRest(p, t0, seqs);
    StartDisciplined(t0, seqs);
    SessionDisciplined(p, Start(t0, seqs), events, s);
  }

  /**
   In every session, whatever the spacing of its ticks and with refused reports: an open exit is for a symbol that
   is held, on the side opposite to the position, with no more to fill than is held.  An exit is never cancelled,
   rejected or expired; it ends filled.
   */
  lemma ExitsOppose(p: Params, t0: Time, seqs: map<string, nat>, events: seq<Event>, s: State, c: string)
    requires Reached(p, t0, seqs, events, s) && c in s.net.book.orders && s.net.book.orders[c].request.intent.Exit?
    ensures var o, h := s.net.book.orders[c], s.office.desk.positions;
            if Terminal(o.state) then o.state == Filled && o.request.quantity - o.filledQty <= DUST
            else
              && o.request.symbol in h && o.request.side.Sign() == -h[o.request.symbol].side.Sign()
              && o.request.quantity - o.filledQty <= h[o.request.symbol].quantity
  {
    hide Session, Distinct, Backed, RowsOppose, Ordinary, ManagedHeld;
    ReachedDisciplined(p, t0, seqs, events, s);
  }

  /**
   Every exit in the position log, at the moment it was booked, was on the side opposite to what the log held of its
   symbol, and for no more than that: no exit opens a position, adds to one, or turns one around.
   */
  lemma ExitsOnlyReduce(p: Params, t0: Time, seqs: map<string, nat>, events: seq<Event>, s: State, i: nat)
    requires Reached(p, t0, seqs, events, s) && i < |s.office.desk.rows| && !s.office.desk.rows[i].entry
    ensures var row, lots := s.office.desk.rows[i], L.Replay(s.office.desk.rows[..i]);
            && row.symbol in lots && row.side.Sign() == -lots[row.symbol].side.Sign()
            && row.quantity <= lots[row.symbol].quantity
  {
    hide Session, Distinct, Backed, Opposed, Ordinary, ManagedHeld, AllEndFilled, L.Replay;
    ReachedDisciplined(p, t0, seqs, events, s);
  }

  /**
   The reason of an exit never reaches its trade: the order is reported as ended, and its reason dropped, before the
   fill that ended it is booked.  Every trade that any session closes is recorded with the default.
   */
  lemma ReasonsLost(p: Params, t0: Time, seqs: map<string, nat>, events: seq<Event>, s: State, t: P.ClosedTrade)
    requires Reached(p, t0, seqs, events, s) && t in s.office.desk.closed
    ensures t.reason == "exit"
  {
    hide Session, Distinct, Backed, Opposed, RowsOppose, ManagedHeld, AllEndFilled;
    ReachedDisciplined(p, t0, seqs, events, s);
  }

  /** A symbol is managed only while it has a position. */
  lemma ManagedIsHeld(p: Params, t0: Time, seqs: map<string, nat>, events: seq<Event>, s: State, x: string)
    requires Reached(p, t0, seqs, events, s) && x in s.office.tracks && s.office.tracks[x].state.Manage?
    ensures x in s.office.desk.positions
  {
    hide Session, Distinct, Backed, Opposed, RowsOppose, Ordinary, AllEndFilled;
    ReachedDisciplined(p, t0, seqs, events, s);
    assert Managing(s.office.tracks, x);
  }
}
