/**
 The session engine: one pipeline from market data to orders, fills, bookings and risk totals.
 The functions say what a handler does to the whole state; the class does it step by step.
 */
module Engine {
  import opened Wrappers
  import opened RealMath
  import opened Models
  import opened Orders
  import opened OrderManagement
  import opened Protocol
  import I = OrderIds
  import J = Journal
  import V = Venue
  import P = Positions
  import L = PositionLog
  import B = Booking
  import D = Drawdown
  import Z = Sizing
  import F = Fsm
  import S = SessionRuns
  import A = Agreement

  datatype Params = Params(cap: Option<real>, venue: V.Config, fsm: F.Config, sizing: Z.Config, limits: D.Limits,
                           haltAt: real, today: int)

  /** Everything the engine keeps besides the two books of orders. */
  datatype Office = Office(desk: B.Desk, signals: map<string, Signal>, reasons: map<string, string>, totals: D.Totals,
                           governor: D.Governor, ledger: seq<D.LedgerRow>, tracks: F.Tracks)

  /** `seqs` are the journal's id counters. */
  datatype State = State(net: S.Net, office: Office, seqs: map<string, nat>)

  // ----- fills and endings

  /** `_on_order_terminal`: an order that ended without a fill fails its entry; nothing is pending any more. */
  function Ended(p: Params, off: Office, o: ManagedOrder, now: Time): Office {
    var coid, symbol := o.request.coid, o.request.symbol;
    var failed := o.request.intent.Entry? && o.filledQty <= DUST && o.state in {Cancelled, Expired, Rejected};
    off.(tracks := if failed then off.tracks[symbol := F.EntryFailed(p.fsm, F.TrackOf(off.tracks, symbol),
                                                                     now)] else off.tracks,
         signals := off.signals - {coid}, reasons := off.reasons - {coid})
  }

  /** The callback for each order the manager reported, in order. */
  function AllEnded(p: Params, off: Office, orders: map<string, ManagedOrder>, coids: seq<string>, now: Time): Office {
    if coids == [] then off else
    var before, coid := AllEnded(p, off, orders, coids[..|coids| - 1], now), coids[|coids| - 1];
    if coid in orders then Ended(p, before, orders[coid], now) else before
  }

  /** The orders reported as finished on the way from one book to the next. */
  function News(b: Book, b': Book): seq<string> {
    if |b.finished| <= |b'.finished| then b'.finished[|b.finished|..] else []
  }

  /** A closed trade goes to both risk layers, the ledger and the state machine. */
  function TradeClosed(p: Params, off: Office, t: P.ClosedTrade, now: Time): Office {
    var day := D.Next(D.Session(off.governor, off.ledger), p.haltAt, p.today, D.Closed(t.pnl));
    off.(totals := D.Tallied(p.limits, off.totals, t.symbol, t.pnl, now), governor := day.governor, ledger := day.rows,
         tracks := off.tracks[t.symbol := F.Closed(p.fsm, F.TrackOf(off.tracks, t.symbol), now)])
  }

  function Reason(off: Office, coid: string): string { if coid in off.reasons then off.reasons[coid] else "exit" }

  function Pending(off: Office, coid: string): Option<Signal> {
    if coid in off.signals then Some(off.signals[coid]) else None
  }

  /** `_on_fill` once the manager has taken the fill. */
  function FillBooked(p: Params, off: Office, intent: Intent, fill: Fill, now: Time): (Office, bool) {
    if intent.Entry? then
      var sig := Pending(off, fill.coid);
      var (desk, raised) := B.Book(off.desk, B.EntryFill(fill, sig));
      if sig.None? || raised then (off, raised) else
      (off.(desk := desk, totals := D.Holding(off.totals, {fill.symbol}),
            tracks := off.tracks[fill.symbol := F.EntryFilled(F.TrackOf(off.tracks, fill.symbol), fill.ts)]), false)
    else
      var trade := P.Leave(off.desk.positions, fill, Reason(off, fill.coid)).1;
      var off' := off.(desk := B.Book(off.desk, B.ExitFill(fill, Reason(off, fill.coid))).0);
      (match trade case None => off' case Some(t) => TradeClosed(p, off', t, now), false)
  }

  datatype Handling = Handling(book: Book, office: Office, raised: bool)

  /** One venue event: the manager's reaction, the callbacks it makes meanwhile, then the booking of a fill. */
  function Handle(p: Params, b: Book, off: Office, ev: V.VenueEvent, now: Time): Handling {
    var r := ApplyEvent(b, ev, now);
    var off' := AllEnded(p, off, r.book.orders, News(b, r.book), now);
    if r.raised || !ev.Fills? || ev.fill.coid !in r.book.orders then Handling(r.book, off', r.raised) else
    var (off'', raised) := FillBooked(p, off', r.book.orders[ev.fill.coid].request.intent, ev.fill, now);
    Handling(r.book, off'', raised)
  }

  function HandleAll(p: Params, b: Book, off: Office, events: seq<V.VenueEvent>, now: Time): Handling
    decreases |events|
  {
    if events == [] then Handling(b, off, false) else
    var h := Handle(p, b, off, events[0], now);
    if h.raised then h else HandleAll(p, h.book, h.office, events[1..], now)
  }

  /** Hands an input to the venue and handles all it reports. */
  function Deliver(p: Params, s: State, input: V.Input, now: Time): (State, bool) {
    var (working, events) := V.Visit(p.venue, s.net.ids, s.net.working, input, now);
    var h := HandleAll(p, s.net.book, s.office, events, now);
    (s.(net := s.net.(book := h.book, working := working, tape := s.net.tape + events,
                      quotes := if input.QuoteIn? then s.net.quotes[input.quote.symbol := input.quote]
                                else s.net.quotes),
        office := h.office),
     h.raised)
  }

  /** The timer sweep with its callbacks and cancels. */
  function Swept(p: Params, s: State, now: Time): State {
    var net := S.Swept(s.net, p.venue, now);
    s.(net := net, office := AllEnded(p, s.office, net.book.orders, News(s.net.book, net.book), now))
  }

  function Tick(p: Params, s: State, now: Time): (State, bool) {
    var (s', raised) := Deliver(p, Swept(p, s, now), V.PollIn, now);
    (s'.(net := s'.net.(tick := now)), raised)
  }

  /** Reports are only ever added. */
  lemma DoReports(b: Book, coid: string, op: Op, now: Time)
    ensures |b.finished| <= |Do(b, coid, op, now).book.finished|
  {
    hide Apply;
  }

  lemma EventReports(b: Book, ev: V.VenueEvent, now: Time)
    ensures |b.finished| <= |ApplyEvent(b, ev, now).book.finished|
  {
    forall b': Book, coid: string, op: Op ensures |b'.finished| <= |Do(b', coid, op, now).book.finished| {
      DoReports(b', coid, op, now);
    }
    hide Do;
  }

  lemma {:induction false} SweepReports(b: Book, ids: seq<string>, now: Time)
    ensures |b.finished| <= |Sweep(b, ids, now).0.finished|
    decreases |ids|
  {
    hide Do, SweptToCancel;
    if ids != [] {
      DoReports(b, ids[0], Ttl, now);
      SweepReports(Do(b, ids[0], Ttl, now).book, ids[1..], now);
    }
  }

  // ----- decisions

  /** The part of an execution plan that reaches the order. */
  datatype Plan = Plan(limit: Option<real>, tif: V.Tif, ttl: Time)

  /**
   What is decided outside this model when a quote is evaluated: the reason of the exit engine if it wants the
   position closed, the emergency flag, whether data checks block entries, the features, the governor's action,
   the id a signal would get, the answer of the risk gates, and the execution plan.
   */
  datatype Decision = Decision(exit: Option<string>, emergency: bool, blocked: bool, feature: F.Feature,
                               action: GovernorAction,
                               trace: string, approved: bool, regime: int, volatility: real, plan: Plan, date: string)

  function Mid(q: Quote): real { (q.bid + q.ask) / 2.0 }

  function EntryRequest(sig: Signal, quantity: real, plan: Plan, coid: string): OrderRequest {
    OrderRequest(sig.symbol, sig.side, quantity, if plan.limit.Some? && plan.limit.value != 0.0 then Limit else Market,
                 plan.limit, coid, sig.traceId, Entry)
  }

  function Opposite(side: Side): Side { if side.Buy? then Sell else Buy }

  function ExitRequest(symbol: string, pos: P.Position, coid: string): OrderRequest {
    OrderRequest(symbol, Opposite(pos.side), pos.quantity, Market, None, coid, pos.traceId, Exit)
  }

  predicate IsActiveExit(o: ManagedOrder, symbol: string) {
    !Terminal(o.state) && o.request.intent.Exit? && o.request.symbol == symbol
  }

  predicate HasActiveExit(orders: map<string, ManagedOrder>, symbol: string) {
    exists coid :: coid in orders && IsActiveExit(orders[coid], symbol)
  }

  function Refused(p: Params, s: State, symbol: string, now: Time): State {
    s.(office := s.office.(tracks := s.office.tracks[symbol := F.EntryFailed(p.fsm, F.TrackOf(s.office.tracks, symbol),
                                                                             now)]))
  }

  /** Takes the next id for a key. */
  function Issue(s: State, key: string): State { s.(seqs := s.seqs[key := I.Counter(s.seqs, key) + 1]) }

  /** An order on its way: created, marked, handed to the venue. */
  function Sent(p: Params, s: State, req: OrderRequest, tif: V.Tif, reference: real, risk: real, ttl: Option<Time>,
                activation: Time, now: Time, office: Office): (State, bool)
    requires WellFormed(s.net.book)
  {
    var (net, raised) := S.Submit(s.net, p.cap, p.venue, req, tif, reference, risk, ttl, activation, now);
    (s.(net := net, office := office), raised)
  }

  function EntrySent(p: Params, s: State, sig: Signal, req: OrderRequest, plan: Plan, reference: real,
                     now: Time): (State, bool)
    requires WellFormed(s.net.book)
  {
    if Created(s.net.book, p.cap, req, reference, p.sizing.riskPerTrade, Some(plan.ttl), 0.0, now).raised
    then (Refused(p, s, sig.symbol, now), false)
    else Sent(p, s, req, plan.tif, reference, p.sizing.riskPerTrade, Some(plan.ttl), 0.0, now,
              s.office.(signals := s.office.signals[req.coid := sig]))
  }

  function ExitSent(p: Params, s: State, reason: string, req: OrderRequest, reference: real, now: Time): (State, bool)
    requires WellFormed(s.net.book)
  {
    if Created(s.net.book, p.cap, req, reference, 0.0, None, p.venue.latency, now).raised then (s, false)
    else Sent(p, s, req, V.Day, reference, 0.0, None, p.venue.latency, now,
              s.office.(reasons := s.office.reasons[req.coid := reason]))
  }

  function EntryKey(sig: Signal, d: Decision): string { I.Key(d.date, sig.symbol, Entry) }

  /** A sized entry gets its id; an id that is taken ends the matter without backing off. */
  function EntryIssued(p: Params, s: State, sig: Signal, quantity: real, d: Decision, reference: real,
                       now: Time): (State, bool)
    requires WellFormed(s.net.book)
  {
    var coid, s' := I.NextId(s.seqs, EntryKey(sig, d)), Issue(s, EntryKey(sig, d));
    if coid in J.Coids(s.net.book.rows) then (s', false)
    else EntrySent(p, s', sig, EntryRequest(sig, quantity, d.plan, coid), d.plan, reference, now)
  }

  /** `_submit_entry` for a signal: gates, size, id, order. */
  function Entered(p: Params, s: State, sig: Signal, d: Decision, reference: real, now: Time): (State, bool)
    requires WellFormed(s.net.book)
  {
    if !d.approved || HasActiveEntry(s.net.book.orders, sig.symbol) then (Refused(p, s, sig.symbol, now), false)
    else if !Z.Sizable(sig) then (s, true)
    else
      var quantity := Z.Quantity(p.sizing, sig, d.regime, d.volatility, D.Loss(s.office.governor));
      if quantity <= 0.0 then (Refused(p, s, sig.symbol, now), false)
      else EntryIssued(p, s, sig, quantity, d, reference, now)
  }

  /** `_submit_exit`: the whole position at market, one exit per symbol at a time. */
  function Exited(p: Params, s: State, symbol: string, reason: string, date: string, reference: real,
                  now: Time): (State, bool)
    requires WellFormed(s.net.book)
  {
    if symbol !in s.office.desk.positions || HasActiveExit(s.net.book.orders, symbol) then (s, false)
    else
      var key := I.Key(date, symbol, Exit);
      var coid, s' := I.NextId(s.seqs, key), Issue(s, key);
      ExitSent(p, s', reason, ExitRequest(symbol, s.office.desk.positions[symbol], coid), reference, now)
  }

  predicate WantsExit(s: State, q: Quote, d: Decision) { d.exit.Some? && q.symbol in s.office.desk.positions }

  /** One evaluation of the state machine. */
  function Stepped(p: Params, s: State, d: Decision): (State, Option<Signal>) {
    var (t, sig) := F.StepTrack(p.fsm, F.TrackOf(s.office.tracks, d.feature.symbol), d.feature, d.action, d.trace);
    (s.(office := s.office.(tracks := s.office.tracks[d.feature.symbol := t])), sig)
  }

  /** `_evaluate`: exits first, then data checks, then the state machine and its signal. */
  function Evaluated(p: Params, s: State, q: Quote, d: Decision, now: Time): (State, bool)
    requires WellFormed(s.net.book)
  {
    if WantsExit(s, q, d) || d.emergency then
      Exited(p, s, q.symbol, if WantsExit(s, q, d) then d.exit.value else "emergency_flatten", d.date, Mid(q), now)
    else if d.blocked then (s, false)
    else
      var (s', sig) := Stepped(p, s, d);
      if sig.None? then (s', false) else Entered(p, s', sig.value, d, Mid(q), now)
  }

  // ----- handlers

  /** `on_trade`; `on_quote` up to its evaluation. */
  function Fed(p: Params, s: State, input: V.Input, now: Time): (State, bool) {
    var (s', raised) := Deliver(p, s, input, now);
    if raised then (s', true) else Tick(p, s', now)
  }

  lemma EventWellFormed(b: Book, ev: V.VenueEvent, now: Time)
    requires WellFormed(b)
    ensures WellFormed(ApplyEvent(b, ev, now).book)
  {
    forall b': Book, coid: string, op: Op | WellFormed(b') ensures WellFormed(Do(b', coid, op, now).book) {
      DoKeepsWellFormed(b', coid, op, now);
    }
    hide Do, WellFormed;
  }

  lemma {:induction false} AllWellFormed(p: Params, b: Book, off: Office, events: seq<V.VenueEvent>, now: Time)
    requires WellFormed(b)
    ensures WellFormed(HandleAll(p, b, off, events, now).book)
    decreases |events|
  {
    hide WellFormed, ApplyEvent, FillBooked, AllEnded;
    if events != [] {
      EventWellFormed(b, events[0], now);
      var h := Handle(p, b, off, events[0], now);
      if !h.raised { AllWellFormed(p, h.book, h.office, events[1..], now); }
    }
  }

  lemma {:induction false} SweepWellFormed(b: Book, ids: seq<string>, now: Time)
    requires WellFormed(b)
    ensures WellFormed(Sweep(b, ids, now).0)
    decreases |ids|
  {
    hide Do, SweptToCancel, WellFormed;
    if ids != [] {
      DoKeepsWellFormed(b, ids[0], Ttl, now);
      SweepWellFormed(Do(b, ids[0], Ttl, now).book, ids[1..], now);
    }
  }

  lemma FedWellFormed(p: Params, s: State, input: V.Input, now: Time)
    requires WellFormed(s.net.book)
    ensures WellFormed(Fed(p, s, input, now).0.net.book)
  {
    hide WellFormed, HandleAll, V.Visit, Sweep, AllEnded, A.CancelAll;
    forall t: State, i: V.Input | WellFormed(t.net.book) ensures WellFormed(Deliver(p, t, i, now).0.net.book) {
      AllWellFormed(p, t.net.book, t.office, V.Visit(p.venue, t.net.ids, t.net.working, i, now).1, now);
    }
    var s' := Deliver(p, s, input, now).0;
    SweepWellFormed(s'.net.book, s'.net.book.ids, now);
  }

  /** `on_quote`: the evaluation comes last. */
  function Quoted(p: Params, s: State, q: Quote, decision: Option<Decision>, now: Time): (State, bool)
    requires WellFormed(s.net.book)
  {
    FedWellFormed(p, s, V.QuoteIn(q), now);
    var (s', raised) := Fed(p, s, V.QuoteIn(q), now);
    if raised || decision.None? then (s', raised) else Evaluated(p, s', q, decision.value, now)
  }

  class SessionEngine {
    const params: Params
    const om: OrderManager
    const venue: V.PaperVenue
    const pm: P.PositionManager
    const posLog: L.PositionEventLog
    const fsm: F.SignalStateMachine
    const risk: D.RiskManager
    const risk2: D.PortfolioRisk
    var pendingSig: map<string, Signal>
    var pendingExit: map<string, string>
    ghost var tick: Time
    ghost var tape: seq<V.VenueEvent>

    ghost function OfficeNow(): Office
      reads this, pm, posLog, fsm, risk, risk2, risk2.ledger
    {
      Office(B.Desk(pm.positions, pm.closed, posLog.rows), pendingSig, pendingExit, risk.totals, risk2.State(),
             risk2.ledger.rows, fsm.tracks)
    }

    ghost function NetNow(): S.Net
      reads this, om, om.journal, venue
    {
      S.Net(om.State(), venue.ids, venue.working, venue.lastQuote, tick, tape)
    }

    ghost function StateNow(): State
      reads this, om, om.journal, venue, pm, posLog, fsm, risk, risk2, risk2.ledger
    {
      State(NetNow(), OfficeNow(), om.journal.seqs)
    }

    ghost predicate Valid()
      reads this, om, om.journal, venue
    {
      om.Valid() && venue.Valid()
    }

    ghost predicate Wired() {
      && om.cap == params.cap && venue.cfg == params.venue && fsm.cfg == params.fsm && risk.limits == params.limits
      && risk2.limit == params.haltAt
    }

    constructor (params: Params, journal: J.OrderJournal, ledger: D.RiskLedger, posLog: L.PositionEventLog, t0: Time)
      requires journal.Valid()
      ensures Valid() && Wired() && this.params == params && om.journal == journal && risk2.ledger == ledger
      ensures this.posLog == posLog
      ensures StateNow() == State(S.Net(Book([], map[], journal.rows, []), [], map[], map[], t0, []),
                                  Office(B.Desk(map[], [], posLog.rows), map[], map[], D.Untraded, D.Calm, ledger.rows,
                                         map[]),
                                  journal.seqs)
    {
      this.params, this.posLog := params, posLog;
      om := new OrderManager(journal, params.cap);
      venue := new V.PaperVenue(params.venue);
      pm := new P.PositionManager();
      fsm := new F.SignalStateMachine(params.fsm);
      risk := new D.RiskManager(params.limits);
      risk2 := new D.PortfolioRisk(params.haltAt, ledger);
      pendingSig, pendingExit := map[], map[];
      tick, tape := t0, [];
    }

    /** `_on_order_terminal`, the manager's callback. */
    method OnOrderTerminal(o: ManagedOrder, now: Time)
      requires Wired()
      modifies this`pendingSig, this`pendingExit, fsm
      ensures OfficeNow() == Ended(params, old(OfficeNow()), o, now)
    {
      hide F.EntryFailed;
      if o.request.intent.Entry? && o.filledQty <= DUST && o.state in {Cancelled, Expired, Rejected} {
        fsm.OnEntryFailed(o.request.symbol, now);
      }
      pendingSig := pendingSig - {o.request.coid};
      pendingExit := pendingExit - {o.request.coid};
    }

    /** Makes the callbacks for everything the manager has reported since. */
    method MakeCallbacks(since: nat, now: Time)
      requires Wired() && since <= |om.finished|
      modifies this`pendingSig, this`pendingExit, fsm
      ensures OfficeNow() == AllEnded(params, old(OfficeNow()), om.orders, om.finished[since..], now)
    {
      hide Ended;
      for i := since to |om.finished|
        invariant OfficeNow() == AllEnded(params, old(OfficeNow()), om.orders, om.finished[since..i], now)
      {
        ghost var done := om.finished[since..i + 1];
        assert done[..|done| - 1] == om.finished[since..i];
        if om.finished[i] in om.orders {
          OnOrderTerminal(om.orders[om.finished[i]], now);
        }
      }
      assert om.finished[since..|om.finished|] == om.finished[since..];
    }

    /** `_on_fill`: books the fill unless the manager refuses it. */
    method OnFill(fill: Fill, now: Time) returns (raised: bool)
      requires Valid() && Wired()
      modifies this`pendingSig, this`pendingExit, om, om.journal`rows, om.journal`seen, pm, posLog, fsm, risk, risk2,
               risk2.ledger
      ensures Valid()
      ensures Handling(om.State(), OfficeNow(), raised)
              == Handle(params, old(om.State()), old(OfficeNow()), V.Fills(fill.coid, fill), now)
    {
      hide WellFormed, Do, AllEnded, FillBooked;
      ghost var b := om.State();
      EventReports(b, V.Fills(fill.coid, fill), now);
      DoReports(b, fill.coid, Execution(fill.quantity, fill.price), now);
      var since := |om.finished|;
      raised := om.OnFill(fill, now);
      MakeCallbacks(since, now);
      if !raised && fill.coid in om.orders {
        raised := BookFill(om.orders[fill.coid].request.intent, fill, now);
      }
    }

    /** The booking half of `_on_fill`. */
    method BookFill(intent: Intent, fill: Fill, now: Time) returns (raised: bool)
      requires Wired()
      modifies pm, posLog, fsm, risk, risk2, risk2.ledger
      ensures (OfficeNow(), raised) == FillBooked(params, old(OfficeNow()), intent, fill, now)
    {
      hide P.Enter, P.Leave, F.EntryFilled, D.Tallied, D.Booked, F.Closed, L.RowOf;
      raised := false;
      if intent.Entry? {
        if fill.coid in pendingSig {
          var sig := pendingSig[fill.coid];
          raised := pm.OnEntryFill(fill, sig);
          if raised {
            UnraisedEntry(old(pm.positions), fill, sig);
            return;
          }
          risk.Hold({fill.symbol});
          posLog.AppendFill(true, fill, Some(L.Levels(sig.stop, sig.target, sig.action)));
          fsm.OnEntryFill(fill.symbol, fill.ts);
        }
      } else {
        var reason := if fill.coid in pendingExit then pendingExit[fill.coid] else "exit";
        posLog.AppendFill(false, fill, None);
        var closed := pm.OnExitFill(fill, reason);
        if closed.Some? {
          OnTradeClosed(closed.value, now);
        }
      }
    }

    method OnTradeClosed(t: P.ClosedTrade, now: Time)
      requires Wired()
      modifies fsm, risk, risk2, risk2.ledger
      ensures OfficeNow() == TradeClosed(params, old(OfficeNow()), t, now)
    {
      hide D.Tallied, D.Booked, F.Closed;
      risk.OnTradeClosed(t.symbol, t.pnl, now);
      risk2.OnTradeClosed(t.pnl, params.today);
      risk2.ledger.Append(D.Kind.TradeClosed(t.pnl), params.today);
      fsm.OnPositionClosed(t.symbol, now);
    }

    /** One round of `_apply_venue_events`. */
    method ApplyVenueEvent(ev: V.VenueEvent, now: Time) returns (raised: bool)
      requires Valid() && Wired() && (ev.Fills? ==> ev.fill.coid == ev.coid)
      modifies this`pendingSig, this`pendingExit, om, om.journal`rows, om.journal`seen, pm, posLog, fsm, risk, risk2,
               risk2.ledger
      ensures Valid()
      ensures Handling(om.State(), OfficeNow(), raised) == Handle(params, old(om.State()), old(OfficeNow()), ev, now)
    {
      hide WellFormed, Do, AllEnded, FillBooked;
      EventReports(om.State(), ev, now);
      var since := |om.finished|;
      match ev {
        case Acked(coid) =>
          om.OnAck(coid, now);
          MakeCallbacks(since, now);
          raised := false;
        case CancelAcked(coid) =>
          if coid in om.orders && om.orders[coid].state in {Acknowledged, Partial} {
            var sent := om.RequestCancel(coid, now);
          }
          om.OnCancelAck(coid, now);
          MakeCallbacks(since, now);
          raised := false;
        case Rejects(coid) =>
          raised := om.OnReject(coid, now);
          MakeCallbacks(since, now);
        case Fills(_, fill) =>
          raised := OnFill(fill, now);
      }
    }

    method ApplyVenueEvents(events: seq<V.VenueEvent>, now: Time) returns (raised: bool)
      requires Valid() && Wired() && forall ev :: ev in events && ev.Fills? ==> ev.fill.coid == ev.coid
      modifies this`pendingSig, this`pendingExit, om, om.journal`rows, om.journal`seen, pm, posLog, fsm, risk, risk2,
               risk2.ledger
      ensures Valid()
      ensures Handling(om.State(), OfficeNow(), raised)
              == HandleAll(params, old(om.State()), old(OfficeNow()), events, now)
    {
      hide Handle, HandleAll;
      ghost var all := HandleAll(params, om.State(), OfficeNow(), events, now);
      assert events[0..] == events;
      for i := 0 to |events|
        invariant Valid() && all == HandleAll(params, om.State(), OfficeNow(), events[i..], now)
      {
        HandleNext(params, om.State(), OfficeNow(), events, i, now);
        raised := ApplyVenueEvent(events[i], now);
        if raised {
          return;
        }
      }
      HandleNothing(params, om.State(), OfficeNow(), now);
      assert events[|events|..] == [];
      raised := false;
    }

    /** `on_tick`: timer cancels to the venue, then whatever the venue has to acknowledge. */
    method OnTick(now: Time) returns (raised: bool)
      requires Valid() && Wired()
      modifies this, om, om.journal`rows, om.journal`seen, venue`working, pm, posLog, fsm, risk, risk2, risk2.ledger
      ensures Valid() && (StateNow(), raised) == Tick(params, old(StateNow()), now)
    {
      hide WellFormed, Sweep, AllEnded, V.Visit, HandleAll, A.CancelAll;
      SweepReports(om.State(), om.ids, now);
      var since := |om.finished|;
      var cancels := om.Poll(now);
      MakeCallbacks(since, now);
      SendCancels(cancels, now);
      assert StateNow() == Swept(params, old(StateNow()), now);
      VisitAbout(params.venue, venue.ids, venue.working, V.PollIn, now);
      var events := venue.Poll(now);
      raised := ApplyVenueEvents(events, now);
      tape, tick := tape + events, now;
    }

    method SendCancels(coids: seq<string>, now: Time)
      requires Valid() && Wired()
      modifies venue`working
      ensures Valid() && venue.working == A.CancelAll(params.venue, old(venue.working), coids, now)
    {
      ghost var all := A.CancelAll(params.venue, venue.working, coids, now);
      assert coids[0..] == coids;
      for i := 0 to |coids|
        invariant Valid() && all == A.CancelAll(params.venue, venue.working, coids[i..], now)
      {
        assert coids[i..][1..] == coids[i + 1..];
        venue.Cancel(coids[i], now);
      }
    }

    /** `on_trade`, for a trade the quality gate lets through. */
    method OnTrade(t: Trade, accepted: set<string>, now: Time) returns (raised: bool)
      requires Valid() && Wired()
      modifies this, om, om.journal`rows, om.journal`seen, venue`working, pm, posLog, fsm, risk, risk2, risk2.ledger
      ensures Valid() && (StateNow(), raised) == Fed(params, old(StateNow()), V.TradeIn(t, accepted), now)
    {
      hide WellFormed, V.Visit, HandleAll, Tick;
      VisitAbout(params.venue, venue.ids, venue.working, V.TradeIn(t, accepted), now);
      var events := venue.OnTrade(t, accepted, now);
      raised := ApplyVenueEvents(events, now);
      tape := tape + events;
      if !raised {
        raised := OnTick(now);
      }
    }

    /** `on_quote`, for a quote the quality gate lets through; no decision when evaluation is not due. */
    method OnQuote(q: Quote, decision: Option<Decision>, now: Time) returns (raised: bool)
      requires Valid() && Wired()
      modifies this, om, om.journal, venue, pm, posLog, fsm, risk, risk2, risk2.ledger
      ensures Valid() && (StateNow(), raised) == Quoted(params, old(StateNow()), q, decision, now)
    {
      hide WellFormed, Fed, Evaluated;
      raised := FeedQuote(q, now);
      if !raised && decision.Some? {
        raised := Evaluate(q, decision.value, now);
      }
    }

    /** `on_quote` up to the tick. */
    method FeedQuote(q: Quote, now: Time) returns (raised: bool)
      requires Valid() && Wired()
      modifies this, om, om.journal`rows, om.journal`seen, venue`working, venue`lastQuote, pm, posLog, fsm, risk, risk2,
               risk2.ledger
      ensures Valid() && (StateNow(), raised) == Fed(params, old(StateNow()), V.QuoteIn(q), now)
    {
      hide WellFormed, V.Visit, HandleAll, Tick;
      VisitAbout(params.venue, venue.ids, venue.working, V.QuoteIn(q), now);
      var events := venue.OnQuote(q, now);
      raised := ApplyVenueEvents(events, now);
      tape := tape + events;
      if !raised {
        raised := OnTick(now);
      }
    }

    method Evaluate(q: Quote, d: Decision, now: Time) returns (raised: bool)
      requires Valid() && Wired()
      modifies this, om, om.journal, venue`ids, venue`working, fsm
      ensures Valid() && (StateNow(), raised) == Evaluated(params, old(StateNow()), q, d, now)
    {
      hide Entered, Exited, F.StepTrack;
      raised := false;
      if d.exit.Some? && q.symbol in pm.positions {
        raised := SubmitExit(q.symbol, d.exit.value, d.date, Mid(q), now);
        return;
      }
      if d.emergency {
        raised := SubmitExit(q.symbol, "emergency_flatten", d.date, Mid(q), now);
        return;
      }
      if d.blocked {
        return;
      }
      var sig := fsm.Step(d.feature, d.action, d.trace);
      assert StateNow() == Stepped(params, old(StateNow()), d).0;
      if sig.Some? {
        raised := SubmitEntry(sig.value, d, Mid(q), now);
      }
    }

    method SubmitEntry(sig: Signal, d: Decision, reference: real, now: Time) returns (raised: bool)
      requires Valid() && Wired()
      modifies this, om, om.journal, venue`ids, venue`working, fsm
      ensures Valid() && (StateNow(), raised) == Entered(params, old(StateNow()), sig, d, reference, now)
    {
      hide WellFormed, EntryIssued, F.EntryFailed, Z.Quantity, HasActiveEntry;
      raised := false;
      if !d.approved || HasActiveEntry(om.orders, sig.symbol) {
        fsm.OnEntryFailed(sig.symbol, now);
        return;
      }
      if !Z.Sizable(sig) {
        return true;
      }
      var quantity := Z.Quantity(params.sizing, sig, d.regime, d.volatility, risk2.peak - risk2.realized);
      if quantity <= 0.0 {
        fsm.OnEntryFailed(sig.symbol, now);
        return;
      }
      raised := IssueEntry(sig, quantity, d, reference, now);
    }

    method IssueEntry(sig: Signal, quantity: real, d: Decision, reference: real, now: Time) returns (raised: bool)
      requires Valid() && Wired()
      modifies this`pendingSig, om, om.journal, venue`ids, venue`working, fsm
      ensures Valid() && (StateNow(), raised) == EntryIssued(params, old(StateNow()), sig, quantity, d, reference, now)
    {
      hide WellFormed, EntrySent, EntryRequest;
      raised := false;
      var coid := om.journal.NextClientOrderId(d.date, sig.symbol, Entry);
      assert StateNow() == Issue(old(StateNow()), EntryKey(sig, d));
      PrintedNotEmpty(I.Key(d.date, sig.symbol, Entry), I.Counter(old(om.journal.seqs),
                                                                  I.Key(d.date, sig.symbol, Entry)) + 1);
      if om.journal.IsDuplicate(coid) {
        return;
      }
      raised := SendEntry(sig, EntryRequest(sig, quantity, d.plan, coid), d.plan, reference, now);
    }

    method SendEntry(sig: Signal, req: OrderRequest, plan: Plan, reference: real, now: Time) returns (raised: bool)
      requires Valid() && Wired()
      modifies this`pendingSig, om, om.journal`rows, om.journal`seen, venue`ids, venue`working, fsm
      ensures Valid() && (StateNow(), raised) == EntrySent(params, old(StateNow()), sig, req, plan, reference, now)
    {
      hide WellFormed, Created, F.EntryFailed, V.Submitted, V.Without, J.Coids, Do;
      S.CreatedShape(om.State(), om.cap, req, reference, params.sizing.riskPerTrade, Some(plan.ttl), 0.0, now);
      raised := false;
      var refused := om.Create(req, reference, params.sizing.riskPerTrade, Some(plan.ttl), 0.0, now);
      if refused {
        fsm.OnEntryFailed(sig.symbol, now);
        return;
      }
      pendingSig := pendingSig[req.coid := sig];
      raised := Send(req, plan.tif, now);
    }

    method SendExit(reason: string, req: OrderRequest, reference: real, now: Time) returns (raised: bool)
      requires Valid() && Wired()
      modifies this`pendingExit, om, om.journal`rows, om.journal`seen, venue`ids, venue`working
      ensures Valid() && (StateNow(), raised) == ExitSent(params, old(StateNow()), reason, req, reference, now)
    {
      hide WellFormed, Created, V.Submitted, V.Without, J.Coids, Do;
      S.CreatedShape(om.State(), om.cap, req, reference, 0.0, None, params.venue.latency, now);
      raised := false;
      var refused := om.Create(req, reference, 0.0, None, params.venue.latency, now);
      if refused {
        return;
      }
      pendingExit := pendingExit[req.coid := reason];
      raised := Send(req, V.Day, now);
    }

    /** Marks the order and hands it to the venue, unless marking is refused. */
    method Send(req: OrderRequest, tif: V.Tif, now: Time) returns (raised: bool)
      requires Valid() && Wired() && req.coid in om.orders && om.orders[req.coid].state == New
      requires om.orders[req.coid].request == req
      modifies om, om.journal`rows, om.journal`seen, venue`ids, venue`working
      ensures Valid() && !raised
      ensures om.State() == Do(old(om.State()), req.coid, Op.MarkSubmitting, now).book
      ensures !Do(old(om.State()), req.coid, Op.MarkSubmitting, now).raised
      ensures venue.ids == if req.coid in old(venue.working) then old(venue.ids)
                           else V.Without(old(venue.ids), req.coid) + [req.coid]
      ensures venue.working
              == old(venue.working)[req.coid := V.Submitted(params.venue, req, tif,
                                                            S.LastQuote(old(NetNow()), req.symbol), now)]
    {
      S.MarkFresh(om.State(), om.orders[req.coid], now);
      hide WellFormed, Do, V.Submitted;
      raised := om.MarkSubmitting(req.coid, now);
      venue.Submit(req, tif, now);
    }

    /** `recover`: positions from the position log, orders from the journal, totals and halt from the ledger. */
    method Recover()
      requires Valid() && Wired()
      modifies om`ids, om`orders, pm`positions, risk, risk2
      ensures Valid() && Reopened(old(om.State()), om.State())
      ensures pm.positions == old(pm.positions) + L.RebuiltBook(posLog.rows)
      ensures var day := D.DayOf(risk2.ledger.rows, params.today);
              && risk2.State() == D.Restored(day)
              && risk.totals == D.Holding(old(risk.totals), L.RebuiltBook(posLog.rows).Keys)
                                .(realized := day.realized, losses := day.losses)
    {
      hide WellFormed, L.RebuiltBook, D.DayOf, Reopened;
      var rebuilt := posLog.RebuildPositions();
      pm.positions := pm.positions + rebuilt;
      risk.Hold(rebuilt.Keys);
      RestoreOrders();
      risk2.Restore(params.today);
      var day := risk2.ledger.LoadDay(params.today);
      risk.totals := risk.totals.(realized := day.realized);
      risk.totals := risk.totals.(losses := day.losses);
    }

    method RestoreOrders()
      requires Valid()
      modifies om`ids, om`orders
      ensures Valid() && Reopened(old(om.State()), om.State())
    {
      hide WellFormed, J.Open, J.Latest, Restored, J.Revived, Reopening, Reopened;
      ghost var before := om.State();
      var open := J.RebuildOpenOrders(om.journal.rows);
      ReopenNothing(before);
      assert open[..0] == [];
      for i := 0 to |open|
        invariant Valid() && Reopening(before, om.State(), open[..i]) && om.journal.rows == before.rows
      {
        assert open[..i + 1] == open[..i] + [open[i]];
        NotYet(open, i);
        ReopenNext(before, om.State(), open[..i], open[i]);
        om.Restore(open[i]);
      }
      assert open[..|open|] == open;
      ReopenDone(before, om.State(), open);
    }

    method SubmitExit(symbol: string, reason: string, date: string, reference: real, now: Time) returns (raised: bool)
      requires Valid() && Wired()
      modifies this, om, om.journal, venue`ids, venue`working
      ensures Valid() && (StateNow(), raised) == Exited(params, old(StateNow()), symbol, reason, date, reference, now)
    {
      hide WellFormed, ExitSent, HasActiveExit;
      raised := false;
      if symbol !in pm.positions {
        return;
      }
      var pos := pm.positions[symbol];
      if HasActiveExit(om.orders, symbol) {
        return;
      }
      var coid := om.journal.NextClientOrderId(date, symbol, Exit);
      assert StateNow() == Issue(old(StateNow()), I.Key(date, symbol, Exit));
      raised := SendExit(reason, ExitRequest(symbol, pos, coid), reference, now);
    }
  }

  /** A position per open symbol, orders per open journal entry, the day's totals: what a restart reads back. */
  ghost predicate Reopened(before: Book, after: Book) {
    && WellFormed(after) && after.rows == before.rows && after.finished == before.finished
    && (forall c :: c in after.orders <==> c in before.orders || J.Open(after.rows, c))
    && (forall c :: c in after.orders ==>
          after.orders[c] == if J.Open(after.rows, c) then J.Revived(J.Latest(after.rows,
                                                                              c).value) else before.orders[c])
  }

  /** The orders restored so far. */
  ghost predicate Reopening(before: Book, after: Book, done: seq<ManagedOrder>) {
    && WellFormed(after) && after.rows == before.rows && after.finished == before.finished
    && (forall c :: c in after.orders <==> c in before.orders || c in J.IdsOf(done))
    && (forall o :: o in done ==> o.request.coid in after.orders && after.orders[o.request.coid] == o)
    && (forall c :: c in before.orders && c !in J.IdsOf(done) ==> after.orders[c] == before.orders[c])
  }

  lemma ReopenNext(before: Book, after: Book, done: seq<ManagedOrder>, o: ManagedOrder)
    requires Reopening(before, after, done) && o.request.coid !in J.IdsOf(done)
    ensures Reopening(before, Restored(after, o), done + [o])
  {
    hide WellFormed;
    assert J.IdsOf(done + [o]) == J.IdsOf(done) + [o.request.coid];
    RestoredWellFormed(after, o);
    forall d | d in done ensures d.request.coid in J.IdsOf(done) {
      var i :| 0 <= i < |done| && done[i] == d;
      assert J.IdsOf(done)[i] == d.request.coid;
    }
  }

  lemma RestoredWellFormed(b: Book, o: ManagedOrder)
    requires WellFormed(b)
    ensures WellFormed(Restored(b, o))
  {
  }

  lemma ReopenNothing(b: Book)
    requires WellFormed(b)
    ensures Reopening(b, b, [])
  {
  }

  lemma NotYet(orders: seq<ManagedOrder>, i: nat)
    requires i < |orders| && J.Distinct(J.IdsOf(orders))
    ensures orders[i].request.coid !in J.IdsOf(orders[..i])
  {
    var ids, before := J.IdsOf(orders), J.IdsOf(orders[..i]);
    assert forall j :: 0 <= j < i ==> before[j] == ids[j];
  }

  lemma ReopenDone(before: Book, after: Book, done: seq<ManagedOrder>)
    requires Reopening(before, after, done)
    requires forall c :: c in J.IdsOf(done) <==> J.Open(after.rows, c)
    requires forall o :: o in done ==>
               J.Open(after.rows, o.request.coid) && o == J.Revived(J.Latest(after.rows, o.request.coid).value)
    ensures Reopened(before, after)
  {
    hide WellFormed, J.Latest;
    forall c | c in after.orders
      ensures after.orders[c] == if J.Open(after.rows, c) then J.Revived(J.Latest(after.rows, c).value)
                                 else before.orders[c]
    {
      if c in J.IdsOf(done) {
        var i :| 0 <= i < |done| && J.IdsOf(done)[i] == c;
        assert done[i] in done;
      }
    }
  }

  lemma PrintedNotEmpty(key: string, n: nat)
    ensures I.Print(key, n) != ""
  {
  }

  lemma {:induction false} VisitAbout(cfg: V.Config, ids: seq<string>, working: V.WorkingMap, input: V.Input, now: Time)
    ensures forall ev :: ev in V.Visit(cfg, ids, working, input, now).1 && ev.Fills? ==> ev.fill.coid == ev.coid
    decreases |ids|
  {
    hide V.React;
    if ids != [] {
      if ids[0] !in working {
        VisitAbout(cfg, ids[1..], working, input, now);
      } else {
        var r := V.React(cfg, working[ids[0]], input, now);
        ReactAbout(cfg, working[ids[0]], input, now);
        VisitAbout(cfg, ids[1..], V.Keep(working, ids[0], r.order), input, now);
      }
    }
  }

  lemma UnraisedEntry(h: P.Holdings, fill: Fill, sig: Signal)
    ensures P.Enter(h, fill, sig).1 ==> P.Enter(h, fill, sig).0 == h
  {
    hide P.Opened, P.Added;
  }

  lemma HandleNext(p: Params, b: Book, off: Office, events: seq<V.VenueEvent>, i: nat, now: Time)
    requires i < |events|
    ensures var h := Handle(p, b, off, events[i], now);
            HandleAll(p, b, off, events[i..], now) == if h.raised then h else HandleAll(p, h.book, h.office,
                                                                                        events[i + 1..], now)
  {
    hide Handle;
    assert events[i..][1..] == events[i + 1..];
  }

  lemma HandleNothing(p: Params, b: Book, off: Office, now: Time)
    ensures HandleAll(p, b, off, [], now) == Handling(b, off, false)
  {
  }
}
