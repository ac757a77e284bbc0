/** What holds of the whole engine over every session: orders, pending work, bookings, risk totals, signals. */
module EngineRuns {
  import opened Wrappers
  import opened RealMath
  import opened Models
  import opened Orders
  import opened OrderManagement
  import opened Protocol
  import opened Engine
  import I = OrderIds
  import J = Journal
  import V = Venue
  import VR = VenueRuns
  import P = Positions
  import L = PositionLog
  import B = Booking
  import D = Drawdown
  import Z = Sizing
  import F = Fsm
  import S = SessionRuns
  import A = Agreement

  // ----- how one book follows another

  predicate Closes(o: ManagedOrder, o': ManagedOrder) { !Terminal(o.state) && Terminal(o'.state) }

  ghost predicate Follows(o: ManagedOrder, o': ManagedOrder) {
    o'.request == o.request && (Terminal(o.state) ==> o'.state == o.state) && (o.state != New ==> o'.state != New)
  }

  /** Requests stay, closed orders stay as they are, and exactly the newly closed orders are reported. */
  ghost predicate Progress(b: Book, b': Book) {
    && WellFormed(b') && b'.ids == b.ids && b'.orders.Keys == b.orders.Keys && |b.finished| <= |b'.finished|
    && (forall c :: c in b.orders ==> Follows(b.orders[c], b'.orders[c]))
    && (forall c :: c in News(b, b') <==> c in b.orders && Closes(b.orders[c], b'.orders[c]))
    && Journals(b, b')
  }

  /** Rows are only added, about orders of the book. */
  ghost predicate Journals(b: Book, b': Book) {
    && (forall c :: c in J.Coids(b.rows) ==> c in J.Coids(b'.rows))
    && (forall c :: c in J.Coids(b'.rows) ==> c in J.Coids(b.rows) || c in b.orders)
  }

  lemma PutProgress(b: Book, coid: string, s: Step)
    requires WellFormed(b) && coid in b.orders && Follows(b.orders[coid], s.order)
    requires s.transitioned ==> !Terminal(b.orders[coid].state)
    requires Closes(b.orders[coid], s.order) ==> s.transitioned
    ensures Progress(b, Put(b, coid, s))
  {
    PutKeepsWellFormed(b, coid, s);
    if s.transitioned {
      J.CoidsSnoc(b.rows, RowOf(s.order));
    }
    hide WellFormed, Terminal;
  }

  lemma ApplyCloses(o: ManagedOrder, op: Op, now: Time)
    ensures var s := Apply(o, op, now);
            && Follows(o, s.order) && (s.transitioned ==> !Terminal(o.state)) && (Closes(o, s.order) ==> s.transitioned)
  {
    ApplyFrame(o, op, now);
    hide Accumulate;
    if op.Execution? { AccumulateFrame(o, op.quantity, op.price); }
  }

  lemma NoProgress(b: Book)
    requires WellFormed(b)
    ensures Progress(b, b)
  {
    hide WellFormed;
  }

  lemma DoProgress(b: Book, coid: string, op: Op, now: Time)
    requires WellFormed(b)
    ensures Progress(b, Do(b, coid, op, now).book)
  {
    hide Apply, Progress, WellFormed, Follows, Closes;
    if coid in b.orders {
      ApplyCloses(b.orders[coid], op, now);
      PutProgress(b, coid, Apply(b.orders[coid], op, now));
    } else {
      NoProgress(b);
    }
  }

  lemma ProgressTrans(b: Book, b1: Book, b2: Book)
    requires Progress(b, b1) && Progress(b1, b2) && b.finished <= b1.finished <= b2.finished
    ensures Progress(b, b2)
  {
    hide WellFormed;
    assert News(b, b2) == News(b, b1) + News(b1, b2);
    forall c ensures c in News(b, b2) <==> c in b.orders && Closes(b.orders[c], b2.orders[c]) {
      if c in b.orders { assert Follows(b.orders[c], b1.orders[c]) && Follows(b1.orders[c], b2.orders[c]); }
    }
  }

  lemma DoPrefix(b: Book, coid: string, op: Op, now: Time)
    ensures b.finished <= Do(b, coid, op, now).book.finished
  {
    hide Apply;
  }

  lemma EventProgress(b: Book, ev: V.VenueEvent, now: Time)
    requires WellFormed(b)
    ensures Progress(b, ApplyEvent(b, ev, now).book) && b.finished <= ApplyEvent(b, ev, now).book.finished
  {
    hide Do, Progress;
    if ev.CancelAcked? {
      DoProgress(b, ev.coid, RequestCancel, now);
      DoPrefix(b, ev.coid, RequestCancel, now);
      DoKeepsWellFormed(b, ev.coid, RequestCancel, now);
      var b1 := Do(b, ev.coid, RequestCancel, now).book;
      DoProgress(b1, ev.coid, CancelAck, now);
      DoPrefix(b1, ev.coid, CancelAck, now);
      ProgressTrans(b, b1, Do(b1, ev.coid, CancelAck, now).book);
      DoProgress(b, ev.coid, CancelAck, now);
      DoPrefix(b, ev.coid, CancelAck, now);
    } else {
      var coid := if ev.Fills? then ev.fill.coid else ev.coid;
      var op := if ev.Fills? then Execution(ev.fill.quantity, ev.fill.price) else if ev.Acked? then Ack else Reject;
      DoProgress(b, coid, op, now);
      DoPrefix(b, coid, op, now);
    }
    hide WellFormed;
  }

  lemma {:induction false} SweepProgress(b: Book, ids: seq<string>, now: Time)
    requires WellFormed(b)
    ensures Progress(b, Sweep(b, ids, now).0) && b.finished <= Sweep(b, ids, now).0.finished
    decreases |ids|
  {
    hide Do, SweptToCancel, WellFormed, Progress;
    if ids == [] {
      NoProgress(b);
    } else {
      var b1 := Do(b, ids[0], Ttl, now).book;
      DoProgress(b, ids[0], Ttl, now);
      DoPrefix(b, ids[0], Ttl, now);
      DoKeepsWellFormed(b, ids[0], Ttl, now);
      SweepProgress(b1, ids[1..], now);
      ProgressTrans(b, b1, Sweep(b1, ids[1..], now).0);
    }
  }

  // ----- pending work

  predicate Works(o: ManagedOrder, entry: bool) { !Terminal(o.state) && o.request.intent.Entry? == entry }

  /** The signal behind an entry order: same trace, symbol and side, usable levels, a size within the budgets. */
  ghost predicate Backs(p: Params, sig: Signal, req: OrderRequest) {
    && req.traceId == sig.traceId && req.symbol == sig.symbol && req.side == sig.side
    && sig.stop != 0.0 && sig.target != 0.0
    && 1.0 <= req.quantity && Z.WithinBudget(p.sizing, sig, req.quantity)
  }

  /** Signals are pending for exactly the open entry orders, and exit reasons for exactly the open exits. */
  ghost predicate PendingSound(p: Params, b: Book, off: Office) {
    && (forall c :: c in off.signals <==> c in b.orders && Works(b.orders[c], true))
    && (forall c :: c in off.reasons <==> c in b.orders && Works(b.orders[c], false))
    && (forall c :: c in off.signals ==> Backs(p, off.signals[c], b.orders[c].request))
  }

  /** The callbacks leave desk and risk alone and drop what the ended orders had pending. */
  ghost predicate Dropped(off: Office, off': Office, coids: seq<string>, orders: map<string, ManagedOrder>) {
    && off'.desk == off.desk && off'.totals == off.totals && off'.governor == off.governor && off'.ledger == off.ledger
    && (forall c :: c in off'.signals <==> c in off.signals && !(c in coids && c in orders))
    && (forall c :: c in off'.signals ==> off'.signals[c] == off.signals[c])
    && (forall c :: c in off'.reasons <==> c in off.reasons && !(c in coids && c in orders))
  }

  lemma {:induction false} CallbacksDrop(p: Params, off: Office, orders: map<string, ManagedOrder>, coids: seq<string>,
                                         now: Time)
    requires forall c :: c in orders ==> orders[c].request.coid == c
    ensures Dropped(off, AllEnded(p, off, orders, coids, now), coids, orders)
  {
    hide F.EntryFailed, Terminal;
    if coids != [] {
      var front, last := coids[..|coids| - 1], coids[|coids| - 1];
      assert coids == front + [last];
      CallbacksDrop(p, off, orders, front, now);
    }
  }

  lemma CallbacksPending(p: Params, b: Book, b': Book, off: Office, now: Time)
    requires PendingSound(p, b, off) && Progress(b, b')
    ensures PendingSound(p, b', AllEnded(p, off, b'.orders, News(b, b'), now))
  {
    CallbacksDrop(p, off, b'.orders, News(b, b'), now);
    hide Backs, AllEnded, Works, Closes, WellFormed, Journals, Dropped;
    PendingDropped(p, b, b', off, AllEnded(p, off, b'.orders, News(b, b'), now), News(b, b'));
  }

  lemma PendingDropped(p: Params, b: Book, b': Book, off: Office, off': Office, news: seq<string>)
    requires PendingSound(p, b, off) && Dropped(off, off', news, b'.orders) && b'.orders.Keys == b.orders.Keys
    requires forall c :: c in b.orders ==> Follows(b.orders[c], b'.orders[c])
    requires forall c :: c in news <==> c in b.orders && Closes(b.orders[c], b'.orders[c])
    ensures PendingSound(p, b', off')
  {
    hide Backs, Works, Closes, Follows;
    forall c | c in b.orders
      ensures b'.orders[c].request == b.orders[c].request
      ensures forall entry ::
                Works(b'.orders[c], entry) <==> Works(b.orders[c], entry) && !Closes(b.orders[c], b'.orders[c])
    {
      WorksOn(b.orders[c], b'.orders[c]);
    }
  }

  lemma WorksOn(o: ManagedOrder, o': ManagedOrder)
    requires Follows(o, o')
    ensures o'.request == o.request
    ensures forall entry :: Works(o', entry) <==> Works(o, entry) && !Closes(o, o')
  {
  }

  // ----- tracks

  predicate Entering(tracks: F.Tracks, s: string) { s in tracks && tracks[s].state == F.SState.Entry }

  /** An armed track has a direction and a positive extreme, so the levels of its signal are not zero. */
  predicate Priced(t: F.Track) { F.Armed(t.state) ==> 0.0 < t.extreme && t.direction in {1.0, -1.0} }

  ghost predicate TracksPriced(tracks: F.Tracks) { forall s :: s in tracks ==> Priced(tracks[s]) }

  predicate FailedEntry(o: ManagedOrder) {
    o.request.intent.Entry? && o.filledQty <= DUST && o.state in {Cancelled, Expired, Rejected}
  }

  /** An open entry order without fills, or one that was filled. */
  predicate Holds(o: ManagedOrder, s: string) {
    && o.request.intent.Entry? && o.request.symbol == s
    && (o.state == Filled || (!Terminal(o.state) && o.filledQty == 0.0))
  }

  predicate IsEntry(b: Book, c: string, s: string) {
    c in b.orders && b.orders[c].request.intent.Entry? && b.orders[c].request.symbol == s
  }

  /** The entry order of a symbol that was created last. */
  ghost predicate Newest(b: Book, c: string, s: string) {
    IsEntry(b, c, s) && exists i :: LastAt(b, c, s, i)
  }

  ghost predicate LastAt(b: Book, c: string, s: string, i: int) {
    0 <= i < |b.ids| && b.ids[i] == c && forall j :: i < j < |b.ids| ==> !IsEntry(b, b.ids[j], s)
  }

  /** The signal pending for the order, if any, is the one that led the symbol into ENTRY. */
  predicate Behind(off: Office, c: string, s: string) {
    c in off.signals && s in off.tracks ==> off.tracks[s].enteredAt == Some(off.signals[c].ts)
  }

  ghost predicate HeldBy(b: Book, off: Office, c: string, s: string) {
    Newest(b, c, s) && Holds(b.orders[c], s) && Behind(off, c, s)
  }

  ghost predicate HasEntry(b: Book, off: Office, s: string) { exists c :: HeldBy(b, off, c, s) }

  /**
   A symbol waits for its entry only while its newest entry order is open, unfilled and that of the signal it
   waits for, or after that order was filled.
   */
  ghost predicate EntriesHeld(b: Book, off: Office) {
    forall s :: Entering(off.tracks, s) ==> HasEntry(b, off, s)
  }

  lemma NewestOn(b: Book, b': Book, c: string, s: string)
    requires Newest(b, c, s) && b'.ids == b.ids && b'.orders.Keys == b.orders.Keys
    requires forall d :: d in b.orders ==> b'.orders[d].request == b.orders[d].request
    ensures Newest(b', c, s)
  {
    var i :| LastAt(b, c, s, i);
    assert LastAt(b', c, s, i);
  }

  /** Callbacks bring no symbol into ENTRY, and take out those whose order failed. */
  lemma {:induction false} CallbacksLeave(p: Params, off: Office, orders: map<string, ManagedOrder>, coids: seq<string>,
                                          now: Time)
    requires forall c :: c in orders ==> orders[c].request.coid == c
    ensures var tracks := AllEnded(p, off, orders, coids, now).tracks;
            && (forall s :: Entering(tracks, s) ==> Entering(off.tracks, s) && tracks[s] == off.tracks[s])
            && (forall c :: c in coids && c in orders && FailedEntry(orders[c]) ==> !Entering(tracks,
                                                                                              orders[c].request.symbol))
            && (TracksPriced(off.tracks) ==> TracksPriced(tracks))
  {
    if coids != [] {
      var front, last := coids[..|coids| - 1], coids[|coids| - 1];
      assert coids == front + [last];
      CallbacksLeave(p, off, orders, front, now);
    }
  }

  /** What a step of the book may do to fills: change those of one order, which it then does not cancel. */
  ghost predicate FillsOnly(b: Book, b': Book, filled: Option<string>) {
    && b'.orders.Keys == b.orders.Keys
    && (forall c :: c in b.orders && Some(c) != filled ==> b'.orders[c].filledQty == b.orders[c].filledQty)
    && (filled.Some? && filled.value in b.orders ==>
          Closes(b.orders[filled.value], b'.orders[filled.value]) ==> b'.orders[filled.value].state == Filled)
  }

  /** The open entry order that has just got a fill. */
  predicate JustFilled(b: Book, filled: Option<string>, s: string) {
    filled.Some? && filled.value in b.orders && Works(b.orders[filled.value],
                                                      true) && b.orders[filled.value].request.symbol == s
  }

  /** After the callbacks, only a symbol whose entry order has just got a fill can still wait without an order. */
  lemma CallbacksHeld(p: Params, b: Book, b': Book, off: Office, now: Time, filled: Option<string>, s: string)
    requires EntriesHeld(b, off) && Progress(b, b') && FillsOnly(b, b', filled)
    ensures var off' := AllEnded(p, off, b'.orders, News(b, b'), now);
            Entering(off'.tracks, s) ==> HasEntry(b', off', s) || JustFilled(b', filled, s)
  {
    CallbacksLeave(p, off, b'.orders, News(b, b'), now);
    CallbacksDrop(p, off, b'.orders, News(b, b'), now);
    var off' := AllEnded(p, off, b'.orders, News(b, b'), now);
    hide AllEnded, News, Journals, WellFormed, LastAt;
    if Entering(off'.tracks, s) {
      assert Entering(off.tracks, s);
      var c :| HeldBy(b, off, c, s);
      assert forall d :: d in b.orders ==> Follows(b.orders[d], b'.orders[d]);
      NewestOn(b, b', c, s);
      HoldsOn(b, b', filled, c, s);
      assert c in News(b, b') <==> Closes(b.orders[c], b'.orders[c]);
      if Holds(b'.orders[c], s) { assert HeldBy(b', off', c, s); }
    }
  }

  lemma HoldsOn(b: Book, b': Book, filled: Option<string>, c: string, s: string)
    requires c in b.orders && c in b'.orders && Holds(b.orders[c], s) && FillsOnly(b, b', filled)
    requires Follows(b.orders[c], b'.orders[c])
    ensures Holds(b'.orders[c], s) || JustFilled(b', filled, s)
            || (Closes(b.orders[c], b'.orders[c]) && FailedEntry(b'.orders[c]))
  {
  }

  // ----- desk and risk totals

  /** The log mirrors the positions, and no position is dust. */
  ghost predicate Held(d: B.Desk) {
    B.LogMirrors(d) && forall s :: s in d.positions ==> DUST < d.positions[s].quantity
  }

  /** Both risk layers and today's ledger agree on what the closed trades made. */
  ghost predicate MoneySound(p: Params, off: Office) {
    && off.totals.realized == off.governor.realized == B.PnlTotal(off.desk.closed)
    && D.InStep(D.Session(off.governor, off.ledger), p.today)
  }

  /** The risk manager knows exactly the symbols that have a position. */
  ghost predicate SymbolsKnown(off: Office) { off.totals.held == off.desk.positions.Keys }

  ghost predicate DeskSound(p: Params, off: Office) { Held(off.desk) && MoneySound(p, off) && SymbolsKnown(off) }

  /** The fill carries the signal's trace, and the signal's levels are usable. */
  predicate Matches(sig: Signal, fill: Fill) { fill.traceId == sig.traceId && sig.stop != 0.0 && sig.target != 0.0 }

  lemma EntryHeld(d: B.Desk, fill: Fill, sig: Signal)
    requires Held(d) && DUST < fill.quantity && Matches(sig, fill)
    ensures var (d', raised) := B.Book(d, B.EntryFill(fill, Some(sig)));
            !raised && Held(d') && d'.closed == d.closed && fill.symbol in d'.positions
  {
    B.BookMirrors(d, B.EntryFill(fill, Some(sig)));
    hide B.LogMirrors, P.Average;
  }

  lemma ExitHeld(d: B.Desk, fill: Fill, reason: string)
    requires Held(d) && DUST < fill.quantity
    ensures Held(B.Book(d, B.ExitFill(fill, reason)).0)
  {
    B.BookMirrors(d, B.ExitFill(fill, reason));
    hide B.LogMirrors, P.Close, P.Pnl, P.Value;
  }

  lemma PnlSnoc(trades: seq<P.ClosedTrade>, t: P.ClosedTrade)
    ensures B.PnlTotal(trades + [t]) == B.PnlTotal(trades) + t.pnl
  {
    assert (trades + [t])[..|trades|] == trades;
  }

  lemma TradeMoney(p: Params, off: Office, t: P.ClosedTrade, now: Time, before: seq<P.ClosedTrade>)
    requires off.totals.realized == off.governor.realized == B.PnlTotal(before) && off.desk.closed == before + [t]
    requires D.InStep(D.Session(off.governor, off.ledger), p.today)
    ensures MoneySound(p, TradeClosed(p, off, t, now))
  {
    PnlSnoc(before, t);
    D.NextInStep(D.Session(off.governor, off.ledger), p.haltAt, p.today, D.Closed(t.pnl));
    hide D.InStep, B.PnlTotal, F.Closed;
  }

  lemma ExitKnown(p: Params, off: Office, fill: Fill, now: Time)
    requires Held(off.desk) && SymbolsKnown(off)
    ensures SymbolsKnown(FillBooked(p, off, Exit, fill, now).0)
  {
    if fill.symbol in off.desk.positions {
      assert L.Mirrors(fill.symbol, off.desk.positions[fill.symbol], L.Replay(off.desk.rows)[fill.symbol]);
    }
    hide Held, D.Next, L.RowOf, F.Closed;
  }

  lemma EntryKnown(p: Params, off: Office, fill: Fill, now: Time)
    requires SymbolsKnown(off) && !FillBooked(p, off, Entry, fill, now).1
    ensures SymbolsKnown(FillBooked(p, off, Entry, fill, now).0)
  {
    hide P.Opened, P.Added, L.RowOf, F.EntryFilled;
  }

  lemma ExitBooked(p: Params, off: Office, fill: Fill, now: Time)
    requires DeskSound(p, off) && DUST < fill.quantity
    ensures DeskSound(p, FillBooked(p, off, Exit, fill, now).0)
  {
    var reason := Reason(off, fill.coid);
    ExitHeld(off.desk, fill, reason);
    ExitKnown(p, off, fill, now);
    hide Held, SymbolsKnown, D.InStep, B.PnlTotal;
    var (positions, trade) := P.Leave(off.desk.positions, fill, reason);
    if trade.Some? {
      var off' := off.(desk := B.Book(off.desk, B.ExitFill(fill, reason)).0);
      TradeMoney(p, off', trade.value, now, off.desk.closed);
    }
    hide P.Leave, TradeClosed;
  }

  lemma ExitFrame(p: Params, off: Office, intent: Intent, fill: Fill, now: Time)
    requires !intent.Entry?
    ensures FillBooked(p, off, intent, fill, now) == FillBooked(p, off, Exit, fill, now)
    ensures var (off', raised) := FillBooked(p, off, Exit, fill, now);
            && !raised && off'.signals == off.signals && off'.reasons == off.reasons
            && (forall s :: Entering(off'.tracks, s) ==> Entering(off.tracks, s) && off'.tracks[s] == off.tracks[s])
            && (TracksPriced(off.tracks) ==> TracksPriced(off'.tracks))
  {
    hide P.Leave, D.Next, D.Tallied;
  }

  lemma EntryBooked(p: Params, off: Office, fill: Fill, now: Time)
    requires DeskSound(p, off) && DUST < fill.quantity
    requires fill.coid in off.signals ==> Matches(off.signals[fill.coid], fill)
    ensures !FillBooked(p, off, Entry, fill, now).1 && DeskSound(p, FillBooked(p, off, Entry, fill, now).0)
  {
    hide Held, SymbolsKnown, D.InStep, B.PnlTotal, P.Enter, F.EntryFilled;
    if fill.coid in off.signals {
      EntryHeld(off.desk, fill, off.signals[fill.coid]);
    }
    EntryKnown(p, off, fill, now);
  }

  lemma EntryFrame(p: Params, off: Office, fill: Fill, now: Time)
    requires !FillBooked(p, off, Entry, fill, now).1
    ensures var off' := FillBooked(p, off, Entry, fill, now).0;
            && off'.signals == off.signals && off'.reasons == off.reasons
            && (forall s :: Entering(off'.tracks, s) ==> Entering(off.tracks, s) && off'.tracks[s] == off.tracks[s])
            && (fill.coid in off.signals ==> !Entering(off'.tracks, fill.symbol))
            && (TracksPriced(off.tracks) ==> TracksPriced(off'.tracks))
  {
    hide P.Enter, L.RowOf;
  }

  /** Booking a fill keeps desk and totals in step, and leads a waiting symbol on. */
  lemma FillSound(p: Params, off: Office, intent: Intent, fill: Fill, now: Time)
    requires DeskSound(p, off) && DUST < fill.quantity
    requires intent.Entry? && fill.coid in off.signals ==> Matches(off.signals[fill.coid], fill)
    ensures var (off', raised) := FillBooked(p, off, intent, fill, now);
            && !raised && DeskSound(p, off') && off'.signals == off.signals && off'.reasons == off.reasons
            && (forall s :: Entering(off'.tracks, s) ==> Entering(off.tracks, s) && off'.tracks[s] == off.tracks[s])
            && (intent.Entry? && fill.coid in off.signals ==> !Entering(off'.tracks, fill.symbol))
            && (TracksPriced(off.tracks) ==> TracksPriced(off'.tracks))
  {
    hide DeskSound, FillBooked, Entering, TracksPriced;
    if intent.Entry? {
      EntryBooked(p, off, fill, now);
      EntryFrame(p, off, fill, now);
    } else {
      ExitFrame(p, off, intent, fill, now);
      ExitBooked(p, off, fill, now);
    }
  }

  // ----- one venue event

  /** A report that fits the order it is about. */
  ghost predicate Fits(ev: V.VenueEvent, b: Book) {
    ev.Fills? ==>
      && ev.fill.coid == ev.coid && ev.coid in b.orders && b.orders[ev.coid].state != New && DUST < ev.fill.quantity
      && ev.fill.symbol == b.orders[ev.coid].request.symbol && ev.fill.traceId == b.orders[ev.coid].request.traceId
  }

  ghost predicate Sound(p: Params, b: Book, off: Office) {
    PendingSound(p, b, off) && EntriesHeld(b, off) && TracksPriced(off.tracks) && DeskSound(p, off)
  }

  lemma EventFills(b: Book, ev: V.VenueEvent, now: Time)
    requires WellFormed(b) && Fits(ev, b) && ev.coid in b.orders
    ensures FillsOnly(b, ApplyEvent(b, ev, now).book, if ev.Fills? then Some(ev.coid) else None)
  {
    EventChangesOnly(b, ev, ev.coid, now);
    EventOnFrame(b.orders[ev.coid], ev, now);
    hide ApplyEvent, WellFormed;
    if ev.Fills? {
      FillCloses(b.orders[ev.coid], ev, now);
    }
    hide EventOn, Closes;
  }

  lemma FillCloses(o: ManagedOrder, ev: V.VenueEvent, now: Time)
    requires ev.Fills?
    ensures Closes(o, EventOn(o, ev, now).0) ==> EventOn(o, ev, now).0.state == Filled
  {
    AccumulateFrame(o, ev.fill.quantity, ev.fill.price);
    hide Accumulate;
  }

  /** Between the callbacks and the booking, all is sound but for a symbol whose order has just got a fill. */
  ghost predicate AlmostSound(p: Params, b: Book, off: Office, filled: Option<string>) {
    && PendingSound(p, b, off) && DeskSound(p, off) && TracksPriced(off.tracks)
    && (forall s :: Entering(off.tracks, s) ==> HasEntry(b, off, s) || JustFilled(b, filled, s))
  }

  lemma CallbacksAside(p: Params, b: Book, b': Book, off: Office, now: Time)
    requires Progress(b, b')
    ensures var off' := AllEnded(p, off, b'.orders, News(b, b'), now);
            && (DeskSound(p, off) ==> DeskSound(p, off'))
            && (TracksPriced(off.tracks) ==> TracksPriced(off'.tracks))
  {
    CallbacksDrop(p, off, b'.orders, News(b, b'), now);
    CallbacksLeave(p, off, b'.orders, News(b, b'), now);
    hide Held, D.InStep, B.PnlTotal, AllEnded, Entering, News, TracksPriced, Journals;
  }

  lemma CallbacksSound(p: Params, b: Book, b': Book, off: Office, now: Time, filled: Option<string>)
    requires Sound(p, b, off) && Progress(b, b') && FillsOnly(b, b', filled)
    ensures AlmostSound(p, b', AllEnded(p, off, b'.orders, News(b, b'), now), filled)
  {
    hide DeskSound, AllEnded, Entering, HasEntry, FillsOnly, Progress, PendingSound, News, TracksPriced, WellFormed;
    var off' := AllEnded(p, off, b'.orders, News(b, b'), now);
    CallbacksPending(p, b, b', off, now);
    CallbacksAside(p, b, b', off, now);
    forall s ensures Entering(off'.tracks, s) ==> HasEntry(b', off', s) || JustFilled(b', filled, s) {
      CallbacksHeld(p, b, b', off, now, filled, s);
    }
  }

  lemma PendingFits(p: Params, b: Book, off: Office, ev: V.VenueEvent)
    requires PendingSound(p, b, off) && ev.Fills? && Fits(ev, b) && ev.coid in off.signals
    ensures Matches(off.signals[ev.coid], ev.fill)
  {
    hide Works, Z.WithinBudget;
  }

  lemma BookingSound(p: Params, b: Book, off: Office, ev: V.VenueEvent, now: Time)
    requires AlmostSound(p, b, off, Some(ev.coid)) && ev.Fills? && Fits(ev, b)
    ensures var (off', raised) := FillBooked(p, off, b.orders[ev.coid].request.intent, ev.fill, now);
            !raised && Sound(p, b, off')
  {
    hide FillBooked, DeskSound, Entering, HasEntry, Backs, Terminal, TracksPriced;
    if ev.coid in off.signals { PendingFits(p, b, off, ev); }
    FillSound(p, off, b.orders[ev.coid].request.intent, ev.fill, now);
    var off' := FillBooked(p, off, b.orders[ev.coid].request.intent, ev.fill, now).0;
    forall s | Entering(off'.tracks, s) ensures HasEntry(b, off', s) {
      if HasEntry(b, off, s) { EntryOn(b, off, off', s); }
    }
  }

  lemma EntryOn(b: Book, off: Office, off': Office, s: string)
    requires HasEntry(b, off, s) && Entering(off.tracks, s) && Entering(off'.tracks, s)
    requires off'.signals == off.signals && off'.tracks[s] == off.tracks[s]
    ensures HasEntry(b, off', s)
  {
    hide LastAt;
    var c :| HeldBy(b, off, c, s);
    assert HeldBy(b, off', c, s);
  }

  lemma FitsOn(ev: V.VenueEvent, b: Book, b': Book)
    requires Fits(ev, b) && Progress(b, b')
    ensures Fits(ev, b')
  {
    hide Terminal, News, Journals, WellFormed;
    if ev.Fills? { assert Follows(b.orders[ev.coid], b'.orders[ev.coid]); }
  }

  /** A refused report is about a closed order, which stays as it is but for its count of fills. */
  lemma RefusedClosed(b: Book, ev: V.VenueEvent, now: Time)
    requires WellFormed(b) && Fits(ev, b) && ev.coid in b.orders && !ev.Rejects? && ApplyEvent(b, ev, now).raised
    ensures ev.Fills? && !JustFilled(ApplyEvent(b, ev, now).book, Some(ev.coid), b.orders[ev.coid].request.symbol)
  {
    EventChangesOnly(b, ev, ev.coid, now);
    RefusedTerminal(b.orders[ev.coid], ev, now);
    hide ApplyEvent, WellFormed, EventOn;
  }

  lemma RefusedTerminal(o: ManagedOrder, ev: V.VenueEvent, now: Time)
    requires EventOn(o, ev, now).1 && !ev.Rejects? && (ev.Fills? ==> o.state != New)
    ensures ev.Fills? && Terminal(EventOn(o, ev, now).0.state) && EventOn(o, ev, now).0.request == o.request
  {
    if ev.Fills? { AccumulateFrame(o, ev.fill.quantity, ev.fill.price); }
    hide Accumulate;
  }

  lemma RefusalSound(p: Params, b: Book, off: Office, c: string)
    requires AlmostSound(p, b, off, Some(c)) && (c in b.orders ==> !JustFilled(b, Some(c), b.orders[c].request.symbol))
    ensures Sound(p, b, off)
  {
    hide PendingSound, DeskSound, TracksPriced, HasEntry, Entering;
  }

  /** One venue event, taken or refused, leaves everything sound, and raises only where the manager does. */
  lemma HandleSound(p: Params, b: Book, off: Office, ev: V.VenueEvent, now: Time)
    requires WellFormed(b) && Sound(p, b, off) && Fits(ev, b) && ev.coid in b.orders && !ev.Rejects?
    ensures var h, r := Handle(p, b, off, ev, now), ApplyEvent(b, ev, now);
            h.raised == r.raised && h.book == r.book && Sound(p, h.book, h.office) && Progress(b, h.book)
  {
    hide AlmostSound, Sound, FillBooked, WellFormed, FillsOnly, News, ApplyEvent, AllEnded, JustFilled;
    var b' := ApplyEvent(b, ev, now).book;
    var off' := AllEnded(p, off, b'.orders, News(b, b'), now);
    EventProgress(b, ev, now);
    EventFills(b, ev, now);
    CallbacksSound(p, b, b', off, now, if ev.Fills? then Some(ev.coid) else None);
    if ApplyEvent(b, ev, now).raised {
      RefusedClosed(b, ev, now);
      assert Follows(b.orders[ev.coid], b'.orders[ev.coid]);
      RefusalSound(p, b', off', ev.coid);
    } else if ev.Fills? {
      FitsOn(ev, b, b');
      BookingSound(p, b', off', ev, now);
    } else {
      QuietSound(p, b', off');
    }
    hide Progress, Fits;
  }

  lemma QuietSound(p: Params, b: Book, off: Office)
    requires AlmostSound(p, b, off, None)
    ensures Sound(p, b, off)
  {
    hide PendingSound, DeskSound, TracksPriced;
  }

  // ----- deliveries

  /** A later book of the same orders. */
  ghost predicate Later(b: Book, b': Book) {
    && WellFormed(b') && b'.ids == b.ids && b'.orders.Keys == b.orders.Keys && Journals(b, b')
    && (forall c :: c in b.orders ==> Follows(b.orders[c], b'.orders[c]))
  }

  lemma LaterTrans(b: Book, b1: Book, b2: Book)
    requires Later(b, b1) && Later(b1, b2)
    ensures Later(b, b2)
  {
    hide WellFormed, Terminal;
    forall c | c in b.orders ensures Follows(b.orders[c], b2.orders[c]) {
      assert Follows(b.orders[c], b1.orders[c]) && Follows(b1.orders[c], b2.orders[c]);
    }
  }

  lemma ProgressLater(b: Book, b': Book)
    requires Progress(b, b')
    ensures Later(b, b')
  {
    hide WellFormed, Journals, Follows;
  }

  ghost predicate Fitting(events: seq<V.VenueEvent>, b: Book) {
    forall ev :: ev in events ==> ev.coid in b.orders && Fits(ev, b) && !ev.Rejects?
  }

  lemma FittingNext(events: seq<V.VenueEvent>, b: Book, b': Book)
    requires events != [] && Fitting(events, b) && Progress(b, b')
    ensures events[0].coid in b.orders && Fits(events[0], b) && !events[0].Rejects? && Fitting(events[1..], b')
  {
    hide Fits, Terminal, News, Journals, WellFormed, Follows;
    assert events[0] in events;
    forall ev | ev in events[1..] ensures ev.coid in b'.orders && Fits(ev, b') && !ev.Rejects? {
      assert ev in events;
      FitsOn(ev, b, b');
    }
  }

  lemma {:induction false} HandleAllSound(p: Params, b: Book, off: Office, events: seq<V.VenueEvent>, now: Time)
    requires WellFormed(b) && Sound(p, b, off) && Fitting(events, b)
    ensures var h, r := HandleAll(p, b, off, events, now), ApplyAll(b, events, now);
            h.raised == r.raised && h.book == r.book && Sound(p, h.book, h.office) && Later(b, h.book)
    decreases |events|
  {
    hide Handle, ApplyEvent, Sound, WellFormed, Fits, Later, Progress;
    if events == [] {
      NoProgress(b);
      ProgressLater(b, b);
    } else {
      assert events[0] in events;
      HandleSound(p, b, off, events[0], now);
      var h := Handle(p, b, off, events[0], now);
      FittingNext(events, b, h.book);
      EventWellFormed(b, events[0], now);
      ProgressLater(b, h.book);
      hide Fitting;
      if !h.raised {
        HandleAllSound(p, h.book, h.office, events[1..], now);
        LaterTrans(b, h.book, HandleAll(p, h.book, h.office, events[1..], now).book);
      }
    }
  }

  /** The venue's copies: known requests, unfinished, and none fill-or-kill, which no plan asks for. */
  ghost predicate Carried(working: V.WorkingMap, b: Book) {
    forall c :: c in working ==> CarriedOne(working[c], b) && working[c].req.coid == c
  }

  ghost predicate CarriedOne(w: Working, b: Book) {
    && w.req.coid in b.orders && w.req == b.orders[w.req.coid].request
    && b.orders[w.req.coid].state != New && VR.Placed(w) && VR.Unfinished(w) && !w.tif.Fok?
  }

  lemma FillsAboveDust(cfg: V.Config, w: Working, input: V.Input, now: Time)
    requires VR.Placed(w) && VR.Unfinished(w) && !w.tif.Fok? && DUST < cfg.minShares
    ensures forall ev :: ev in V.React(cfg, w, input, now).events && ev.Fills? ==> DUST < ev.fill.quantity
  {
    hide V.TakeLimit;
  }

  lemma ReactFits(cfg: V.Config, w: Working, b: Book, input: V.Input, now: Time)
    requires CarriedOne(w, b) && DUST < cfg.minShares
    ensures Fitting(V.React(cfg, w, input, now).events, b)
    ensures var r := V.React(cfg, w, input, now);
            r.order.Some? ==> CarriedOne(r.order.value, b) && r.order.value.req == w.req
  {
    ReactAbout(cfg, w, input, now);
    FillsAboveDust(cfg, w, input, now);
    VR.ReactAccounted(cfg, w, input, now);
    VR.ReactShaped(cfg, w, input, now);
    var r := V.React(cfg, w, input, now);
    hide V.React, VR.Unfinished, VR.Placed, VR.AtLimitOrBetter;
    forall ev | ev in r.events ensures ev.coid in b.orders && Fits(ev, b) && !ev.Rejects? {
      if ev.Fills? { assert VR.Executed(r) == Some(ev.fill); }
    }
  }

  lemma {:induction false} VisitFits(cfg: V.Config, ids: seq<string>, working: V.WorkingMap, b: Book, input: V.Input,
                                     now: Time)
    requires Carried(working, b) && DUST < cfg.minShares
    ensures Fitting(V.Visit(cfg, ids, working, input, now).1, b) && Carried(V.Visit(cfg, ids, working, input, now).0, b)
    decreases |ids|
  {
    hide V.React, Fits, CarriedOne;
    if ids != [] {
      if ids[0] !in working {
        VisitFits(cfg, ids[1..], working, b, input, now);
      } else {
        var r := V.React(cfg, working[ids[0]], input, now);
        ReactFits(cfg, working[ids[0]], b, input, now);
        VisitFits(cfg, ids[1..], V.Keep(working, ids[0], r.order), b, input, now);
      }
    }
  }

  lemma CarriedOn(working: V.WorkingMap, b: Book, b': Book)
    requires Carried(working, b) && Later(b, b')
    ensures Carried(working, b')
  {
    hide Terminal, WellFormed, Journals, VR.Placed, VR.Unfinished;
    forall c | c in working ensures CarriedOne(working[c], b') {
      assert CarriedOne(working[c], b);
      assert Follows(b.orders[c], b'.orders[c]);
    }
  }
}
