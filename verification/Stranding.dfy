/** Symbols that wait forever: after an entry filled in one piece, nothing leads the state machine on. */
module Stranding {
  import opened Wrappers
  import opened RealMath
  import opened Models
  import opened Orders
  import opened OrderManagement
  import opened Protocol
  import opened Engine
  import opened EngineRuns
  import opened EngineSessions
  import V = Venue
  import VR = VenueRuns
  import P = Positions
  import L = PositionLog
  import B = Booking
  import D = Drawdown
  import Z = Sizing
  import F = Fsm
  import I = OrderIds
  import J = Journal
  import S = SessionRuns
  import A = Agreement
  import T = Retests
  import DL = Deadlines

  /** In ENTRY with no open order and no position. */
  ghost predicate Stranded(b: Book, off: Office, x: string) {
    Entering(off.tracks, x) && x !in off.desk.positions && Idle(b, x)
  }

  ghost predicate Idle(b: Book, x: string) {
    forall c :: c in b.orders && b.orders[c].request.symbol == x ==> Terminal(b.orders[c].state)
  }

  lemma LaterIdle(b: Book, b': Book, x: string)
    requires Idle(b, x) && Later(b, b')
    ensures Idle(b', x)
  {
    hide Terminal, WellFormed, Journals;
    forall c | c in b'.orders && b'.orders[c].request.symbol == x ensures Terminal(b'.orders[c].state) {
      assert Follows(b.orders[c], b'.orders[c]);
    }
  }

  /** Callbacks about orders of other symbols leave a symbol's track alone. */
  lemma {:induction false} CallbacksElsewhere(p: Params, off: Office, orders: map<string, ManagedOrder>,
                                              coids: seq<string>, now: Time, x: string)
    requires forall c :: c in coids && c in orders ==> orders[c].request.symbol != x
    ensures var off' := AllEnded(p, off, orders, coids, now);
            off'.desk == off.desk && (Entering(off.tracks, x) ==> Entering(off'.tracks, x))
  {
    hide F.EntryFailed;
    if coids != [] {
      var front, last := coids[..|coids| - 1], coids[|coids| - 1];
      assert coids == front + [last];
      CallbacksElsewhere(p, off, orders, front, now, x);
    }
  }

  lemma ClosedElsewhere(p: Params, b: Book, b': Book, off: Office, now: Time, x: string)
    requires Stranded(b, off, x) && Progress(b, b')
    ensures var off' := AllEnded(p, off, b'.orders, News(b, b'), now); Stranded(b', off', x) && off'.desk == off.desk
  {
    hide WellFormed, Journals, Entering, AllEnded, News;
    forall c | c in News(b, b') && c in b'.orders ensures b'.orders[c].request.symbol != x {
      assert Closes(b.orders[c], b'.orders[c]) && Follows(b.orders[c], b'.orders[c]);
    }
    CallbacksElsewhere(p, off, b'.orders, News(b, b'), now, x);
    ProgressLater(b, b');
    LaterIdle(b, b', x);
  }

  /** Booking leaves a flat symbol waiting: another symbol's fill, or one that finds neither signal nor position. */
  lemma BookedBeside(p: Params, off: Office, intent: Intent, fill: Fill, now: Time, x: string)
    requires Held(off.desk) && x !in off.desk.positions && Entering(off.tracks, x)
    requires fill.symbol == x && intent.Entry? ==> fill.coid !in off.signals
    ensures var off' := FillBooked(p, off, intent, fill, now).0;
            x !in off'.desk.positions && Entering(off'.tracks, x)
  {
    if fill.symbol in off.desk.positions {
      assert L.Mirrors(fill.symbol, off.desk.positions[fill.symbol], L.Replay(off.desk.rows)[fill.symbol]);
    }
    hide Held, D.Next, D.Tallied, P.Opened, P.Added, L.RowOf;
  }

  lemma ClosedUnpending(p: Params, b: Book, off: Office, c: string)
    requires PendingSound(p, b, off) && c in b.orders && Terminal(b.orders[c].state)
    ensures c !in off.signals
  {
    hide Backs;
  }

  lemma SoundPending(p: Params, b: Book, off: Office)
    requires Sound(p, b, off)
    ensures PendingSound(p, b, off) && Held(off.desk)
  {
    hide PendingSound, Held, MoneySound, EntriesHeld, TracksPriced;
  }

  lemma HandleStranded(p: Params, b: Book, off: Office, ev: V.VenueEvent, now: Time, x: string)
    requires WellFormed(b) && Sound(p, b, off) && Fits(ev, b) && ev.coid in b.orders && Stranded(b, off, x)
    ensures var h := Handle(p, b, off, ev, now); Stranded(h.book, h.office, x)
  {
    hide WellFormed, ApplyEvent, AllEnded, Progress, Entering, Sound, PendingSound, FillBooked, Held, News, Terminal;
    var b' := ApplyEvent(b, ev, now).book;
    EventProgress(b, ev, now);
    ClosedElsewhere(p, b, b', off, now, x);
    var off' := AllEnded(p, off, b'.orders, News(b, b'), now);
    if ev.Fills? && ev.coid in b'.orders {
      SoundPending(p, b, off);
      CallbacksPending(p, b, b', off, now);
      FitsOn(ev, b, b');
      if ev.fill.symbol == x { ClosedUnpending(p, b', off', ev.coid); }
      BookedBeside(p, off', b'.orders[ev.coid].request.intent, ev.fill, now, x);
    }
  }

  lemma {:induction false} HandleAllStranded(p: Params, b: Book, off: Office, events: seq<V.VenueEvent>, now: Time,
                                             x: string)
    requires WellFormed(b) && Sound(p, b, off) && Fitting(events, b) && Stranded(b, off, x)
    ensures var h := HandleAll(p, b, off, events, now); Stranded(h.book, h.office, x)
    decreases |events|
  {
    hide Handle, ApplyEvent, Sound, WellFormed, Fits, Progress, Stranded;
    if events != [] {
      assert events[0] in events;
      HandleSound(p, b, off, events[0], now);
      var h := Handle(p, b, off, events[0], now);
      HandleStranded(p, b, off, events[0], now, x);
      FittingNext(events, b, h.book);
      EventWellFormed(b, events[0], now);
      hide Fitting;
      if !h.raised { HandleAllStranded(p, h.book, h.office, events[1..], now, x); }
    }
  }

  lemma DeliverStranded(p: Params, s: State, input: V.Input, now: Time, x: string)
    requires Rest(p, s) && DUST < p.venue.minShares && Stranded(s.net.book, s.office, x)
    ensures var s' := Engine.Deliver(p, s, input, now).0; Stranded(s'.net.book, s'.office, x)
  {
    hide V.Visit, HandleAll, WellFormed, Sound, Carried, Fitting, Stranded, Alone, IdsCovered;
    VisitFits(p.venue, s.net.ids, s.net.working, s.net.book, input, now);
    var (working, events) := V.Visit(p.venue, s.net.ids, s.net.working, input, now);
    HandleAllStranded(p, s.net.book, s.office, events, now, x);
  }

  lemma TickStranded(p: Params, s: State, now: Time, x: string)
    requires Rest(p, s) && DUST < p.venue.minShares && Stranded(s.net.book, s.office, x)
    ensures var s' := Engine.Tick(p, s, now).0; Stranded(s'.net.book, s'.office, x)
  {
    hide Sweep, A.CancelAll, AllEnded, News, Progress, WellFormed, Rest, Engine.Deliver, Stranded;
    RestBook(p, s);
    SweptRest(p, s, now);
    var mid := Engine.Swept(p, s, now);
    SweepProgress(s.net.book, s.net.book.ids, now);
    ClosedElsewhere(p, s.net.book, mid.net.book, s.office, now, x);
    DeliverStranded(p, mid, V.PollIn, now, x);
  }

  lemma FedStranded(p: Params, s: State, input: V.Input, now: Time, x: string)
    requires Rest(p, s) && DUST < p.venue.minShares && Stranded(s.net.book, s.office, x)
    ensures var s' := Fed(p, s, input, now).0; Stranded(s'.net.book, s'.office, x)
  {
    hide Engine.Tick, Engine.Deliver, S.Deliver, Rest, Stranded;
    DeliverRest(p, s, input, now);
    DeliverStranded(p, s, input, now, x);
    TickStranded(p, Engine.Deliver(p, s, input, now).0, now, x);
  }

  // ----- evaluation

  lemma SteppedStranded(p: Params, s: State, d: Decision, x: string)
    requires Stranded(s.net.book, s.office, x)
    ensures var (s', sig) := Stepped(p, s, d);
            && s'.net == s.net && Stranded(s'.net.book, s'.office, x)
            && (sig.Some? ==> sig.value.symbol != x)
  {
    var t := F.TrackOf(s.office.tracks, d.feature.symbol);
    if d.feature.symbol == x {
      F.OwnedStates(p.fsm, t, d.feature, d.action, d.trace);
    } else {
      StepSymbol(p.fsm, t, d.feature, d.action, d.trace);
    }
    hide F.StepTrack, Idle;
  }

  lemma StepSymbol(c: F.Config, t: F.Track, f: F.Feature, action: GovernorAction, trace: string)
    ensures var sig := F.StepTrack(c, t, f, action, trace).1;
            sig.Some? ==> sig.value.symbol == f.symbol
  {
    hide F.Exhausted, F.NearExtreme, F.BookAgainst, F.StopPrice, F.TargetPrice, F.ImpulseSeen, F.Arm;
  }

  lemma SentStranded(p: Params, s: State, req: OrderRequest, tif: V.Tif, reference: real, risk: real, ttl: Option<Time>,
                     activation: Time, now: Time, office: Office, x: string)
    requires WellFormed(s.net.book) && !Created(s.net.book, p.cap, req, reference, risk, ttl, activation, now).raised
    requires Stranded(s.net.book, s.office, x) && req.symbol != x
    requires office.tracks == s.office.tracks && office.desk == s.office.desk
    ensures var s' := Sent(p, s, req, tif, reference, risk, ttl, activation, now, office).0;
            Stranded(s'.net.book, s'.office, x)
  {
    SentJoins(p, s, req, tif, reference, risk, ttl, activation, now, office);
    hide Sent, Created, WellFormed, V.Submitted, Terminal, J.Coids;
  }

  lemma EnteredStranded(p: Params, s: State, sig: Signal, d: Decision, reference: real, now: Time, x: string)
    requires WellFormed(s.net.book) && Stranded(s.net.book, s.office, x) && sig.symbol != x
    ensures var s' := Entered(p, s, sig, d, reference, now).0; Stranded(s'.net.book, s'.office, x)
  {
    hide Created, Sent, WellFormed, I.NextId, HasActiveEntry, Z.Quantity, EntryKey, J.Coids, Idle, F.EntryFailed,
         Stranded, Refused;
    RefusedElsewhere(p, s, sig.symbol, now, x);
    if Z.Sizable(sig) {
      var quantity := Z.Quantity(p.sizing, sig, d.regime, d.volatility, D.Loss(s.office.governor));
      var key := EntryKey(sig, d);
      var coid, s1 := I.NextId(s.seqs, key), Issue(s, key);
      var req := EntryRequest(sig, quantity, d.plan, coid);
      if !Created(s.net.book, p.cap, req, reference, p.sizing.riskPerTrade, Some(d.plan.ttl), 0.0, now).raised {
        SentStranded(p, s1, req, d.plan.tif, reference, p.sizing.riskPerTrade, Some(d.plan.ttl), 0.0, now,
                     s1.office.(signals := s1.office.signals[coid := sig]), x);
      }
      RefusedElsewhere(p, s1, sig.symbol, now, x);
    }
  }

  lemma RefusedElsewhere(p: Params, s: State, symbol: string, now: Time, x: string)
    requires Stranded(s.net.book, s.office, x) && symbol != x
    ensures Stranded(Refused(p, s, symbol, now).net.book, Refused(p, s, symbol, now).office, x)
  {
    hide Idle;
  }

  lemma ExitedStranded(p: Params, s: State, symbol: string, reason: string, date: string, reference: real, now: Time,
                       x: string)
    requires WellFormed(s.net.book) && Stranded(s.net.book, s.office, x)
    ensures var s' := Exited(p, s, symbol, reason, date, reference, now).0; Stranded(s'.net.book, s'.office, x)
  {
    if symbol in s.office.desk.positions && !HasActiveExit(s.net.book.orders, symbol) {
      var key := I.Key(date, symbol, Exit);
      var coid, s1 := I.NextId(s.seqs, key), Issue(s, key);
      var req := ExitRequest(symbol, s.office.desk.positions[symbol], coid);
      hide Created, Sent, WellFormed, I.NextId, I.Key, HasActiveExit, Idle;
      if !Created(s.net.book, p.cap, req, reference, 0.0, None, p.venue.latency, now).raised {
        SentStranded(p, s1, req, V.Day, reference, 0.0, None, p.venue.latency, now,
                     s1.office.(reasons := s1.office.reasons[coid := reason]), x);
      }
    }
  }

  lemma EvaluatedStranded(p: Params, s: State, q: Quote, d: Decision, now: Time, x: string)
    requires WellFormed(s.net.book) && Stranded(s.net.book, s.office, x)
    ensures var s' := Evaluated(p, s, q, d, now).0; Stranded(s'.net.book, s'.office, x)
  {
    hide WellFormed, Exited, Entered, Stepped, Stranded;
    if WantsExit(s, q, d) || d.emergency {
      ExitedStranded(p, s, q.symbol, if WantsExit(s, q, d) then d.exit.value else "emergency_flatten", d.date, Mid(q),
                     now, x);
    } else if !d.blocked {
      SteppedStranded(p, s, d, x);
      var (s', sig) := Stepped(p, s, d);
      if sig.Some? {
        EnteredStranded(p, s', sig.value, d, Mid(q), now, x);
      }
    }
  }

  lemma NextStranded(p: Params, s: State, e: Event, x: string)
    requires Rest(p, s) && Sane(p) && Decided(p, e) && Stranded(s.net.book, s.office, x)
    ensures WellFormed(s.net.book)
    ensures var s' := Next(p, s, e).0; Stranded(s'.net.book, s'.office, x)
  {
    hide WellFormed, Rest, Sensible, Fed, Evaluated, Engine.Tick, Stranded;
    RestBook(p, s);
    match e
    case QuoteComes(q, decision, now) =>
      FedStranded(p, s, V.QuoteIn(q), now, x);
      FedRest(p, s, V.QuoteIn(q), now);
      if decision.Some? {
        RestBook(p, Fed(p, s, V.QuoteIn(q), now).0);
        EvaluatedStranded(p, Fed(p, s, V.QuoteIn(q), now).0, q, decision.value, now, x);
      }
    case TradeComes(t, accepted, now) => FedStranded(p, s, V.TradeIn(t, accepted), now, x);
    case TimerFires(now) => TickStranded(p, s, now, x);
  }

  /** Once a symbol waits with no open order and no position, no session ever changes that. */
  lemma {:induction false} StrandedForever(p: Params, s: State, events: seq<Event>, s': State, x: string)
    requires Rest(p, s) && Sane(p) && Session(p, s, events, s') && Stranded(s.net.book, s.office, x)
    ensures Rest(p, s') && Stranded(s'.net.book, s'.office, x)
    decreases |events|
  {
    hide Rest, Next, WellFormed, Sane, Decided, Stranded;
    if events != [] {
      NextRest(p, s, events[0]);
      NextStranded(p, s, events[0], x);
      StrandedForever(p, Next(p, s, events[0]).0, events[1..], s', x);
    }
  }

  /**
   How it happens: a fill of the only open order of a waiting symbol without a position strands the symbol if and
   only if it completes the order.
   */
  lemma FillStrandsIffComplete(p: Params, b: Book, off: Office, ev: V.VenueEvent, now: Time, x: string)
    requires WellFormed(b) && EntryFill(b, ev) && ev.fill.symbol == x && 0.0 < ev.fill.quantity
    requires ev.coid in off.signals
    requires Entering(off.tracks, x) && x !in off.desk.positions
    requires forall c :: c in b.orders && c != ev.coid && b.orders[c].request.symbol == x ==>
               Terminal(b.orders[c].state)
    ensures var h := Handle(p, b, off, ev, now);
            !h.raised && (Stranded(h.book, h.office, x) <==> Completes(b.orders[ev.coid], ev.fill))
  {
    hide Handle, ApplyEvent, WellFormed, Terminal, News, Journals, Entering, Completes;
    if Completes(b.orders[ev.coid], ev.fill) {
      CompletingUnbooked(p, b, off, ev, now);
      EntryFillTaken(b, ev, now);
      EventProgress(b, ev, now);
      FilledIsTerminal();
      var b' := ApplyEvent(b, ev, now).book;
      forall c | c in b'.orders && b'.orders[c].request.symbol == x ensures Terminal(b'.orders[c].state) {
        assert Follows(b.orders[c], b'.orders[c]);
      }
    } else {
      PartialBooked(p, b, off, ev, now);
    }
  }

  lemma FilledIsTerminal()
    ensures Terminal(Filled)
  {
  }

  // ----- a session that strands a symbol

  const DemoVenue := V.Config(250.0, 0.0, 120.0, 200.0, 1.0, false, 1.0, 10.0)

  const DemoSizing := Z.Config(100.0, 2000.0, 50.0, 0.5, 1.5, 50.0, 90.0, (1.0, 1.0, 1.0), 60.0, 5000.0)

  const Demo := Params(None, DemoVenue, T.DefaultConfig, DemoSizing, D.Limits(3, 60000.0, 60000.0), 120.0, 0)

  const X := "X"

  function DemoQuote(ts: Time, bidSize: real): Quote { Quote(X, ts, 99.0, 101.0, bidSize, 1000.0) }

  /** Cross at the bid, immediate or cancel. */
  function DemoDecision(f: F.Feature): Decision {
    Decision(None, false, false, f, Reversal, "trace", true, 0, 0.0, Plan(Some(99.0), V.Ioc, 1500.0), "2024-01-02")
  }

  function DemoEvent(f: F.Feature): Event { QuoteComes(DemoQuote(f.ts, 1000.0), Some(DemoDecision(f)), f.ts) }

  /** No orders and no position. */
  ghost predicate Blank(s: State) {
    && s.net.book == Book([], map[], [], []) && s.net.ids == [] && s.net.working == map[]
    && s.office.desk.positions == map[] && s.office.governor == D.Calm
  }

  lemma BlankTick(s: State, now: Time)
    requires Blank(s)
    ensures Engine.Tick(Demo, s, now) == (s.(net := s.net.(tick := now)), false)
  {
    assert s.net.tape + [] == s.net.tape;
    assert News(s.net.book, s.net.book) == [];
  }

  lemma BlankFed(s: State, q: Quote, now: Time)
    requires Blank(s)
    ensures Fed(Demo, s, V.QuoteIn(q), now)
            == (s.(net := s.net.(tick := now, quotes := s.net.quotes[q.symbol := q])), false)
  {
    assert s.net.tape + [] == s.net.tape;
    var s1 := s.(net := s.net.(quotes := s.net.quotes[q.symbol := q]));
    assert Engine.Deliver(Demo, s, V.QuoteIn(q), now) == (s1, false);
    BlankTick(s1, now);
    hide Engine.Deliver, Engine.Tick;
  }

  function TrackX(s: State): F.Track { F.TrackOf(s.office.tracks, X) }

  /** An evaluation without a signal moves the track only. */
  lemma QuietQuote(s: State, f: F.Feature)
    requires Blank(s) && f.symbol == X && F.StepTrack(T.DefaultConfig, TrackX(s), f, Reversal, "trace").1.None?
    ensures WellFormed(s.net.book)
    ensures var s' := Next(Demo, s, DemoEvent(f)).0;
            Blank(s') && TrackX(s') == F.StepTrack(T.DefaultConfig, TrackX(s), f, Reversal, "trace").0
  {
    hide F.StepTrack, Fed, Engine.Tick;
    BlankFed(s, DemoQuote(f.ts, 1000.0), f.ts);
  }

  lemma {:induction false} SessionSnoc(p: Params, s: State, events: seq<Event>, s': State, e: Event)
    requires Session(p, s, events, s') && WellFormed(s'.net.book) && Decided(p, e)
    ensures Session(p, s, events + [e], Next(p, s', e).0)
    decreases |events|
  {
    hide Next, Decided, WellFormed;
    if events == [] {
      assert [e][1..] == [];
      assert Session(p, Next(p, s', e).0, [], Next(p, s', e).0);
      assert events + [e] == [e];
    } else {
      assert (events + [e])[1..] == events[1..] + [e];
      SessionSnoc(p, Next(p, s, events[0]).0, events[1..], s', e);
    }
  }

  lemma BurstDecided(f: F.Feature)
    requires f.residualReturn == 0.01 && 0.0 < f.mid
    ensures Decided(Demo, DemoEvent(f))
  {
    assert Abs(f.residualReturn) * T.DefaultConfig.targetReversion == 0.005;
  }

  /** One more evaluation of the session, without a signal. */
  lemma QuietStep(events: seq<Event>, s: State, f: F.Feature) returns (events': seq<Event>, s': State)
    requires Session(Demo, Start(0.0, map[]), events, s) && Blank(s)
    requires f.symbol == X && f.residualReturn == 0.01 && 0.0 < f.mid
    requires F.StepTrack(T.DefaultConfig, TrackX(s), f, Reversal, "trace").1.None?
    ensures Session(Demo, Start(0.0, map[]), events', s') && Blank(s')
    ensures TrackX(s') == F.StepTrack(T.DefaultConfig, TrackX(s), f, Reversal, "trace").0
  {
    hide F.StepTrack, Next, Session;
    QuietQuote(s, f);
    BurstDecided(f);
    SessionSnoc(Demo, Start(0.0, map[]), events, s, DemoEvent(f));
    events', s' := events + [DemoEvent(f)], Next(Demo, s, DemoEvent(f)).0;
  }

  /** The burst up to the failed retest. */
  lemma DemoBurst() returns (events: seq<Event>, s: State)
    ensures Session(Demo, Start(0.0, map[]), events, s) && Blank(s)
    ensures T.InBurst(TrackX(s), F.FailedRetest, 12000.0, true)
  {
    hide F.StepTrack, Next, Session;
    events, s := [], Start(0.0, map[]);
    assert Session(Demo, Start(0.0, map[]), [], s) by { NoEvents(s); }
    T.ImpulseStep(TrackX(s), X, 0.0, "trace");
    events, s := QuietStep(events, s, T.Burst(X, 0.0, 100.0, 4.0, 0.0));
    T.ConfirmStep(TrackX(s), X, 0.0, 1000.0, false, "trace");
    events, s := QuietStep(events, s, T.Burst(X, 1000.0, 100.0, 4.0, 0.0));
    T.ExhaustionStep(TrackX(s), X, 1000.0, 10000.0, false, "trace");
    events, s := QuietStep(events, s, T.Burst(X, 10000.0, 99.0, 0.5, 0.0));
    T.RetestStep(TrackX(s), X, 10000.0, 11000.0, false, "trace");
    events, s := QuietStep(events, s, T.Burst(X, 11000.0, 100.0, 0.5, 0.0));
    T.FailureStep(TrackX(s), X, 10000.0, 12000.0, true, "trace");
    events, s := QuietStep(events, s, T.Burst(X, 12000.0, 99.0, 0.5, -1.0));
  }

  lemma NoEvents(s: State)
    ensures Session(Demo, s, [], s)
  {
  }

  /** A crossing sell at the venue, for at least ten shares. */
  predicate CrossingSell(w: Working, c: string) {
    && w.req.coid == c && w.req.symbol == X && w.req.intent.Entry? && w.req.side.Sell? && 10.0 <= w.req.quantity
    && w.awaiting && w.limit == Some(99.0) && w.activateAt <= 14000.0 && w.filled == 0.0 && w.tif.Ioc?
  }

  /** A waiting symbol whose only order is a crossing sell at the venue, without a position. */
  ghost predicate Waiting(s: State, c: string) {
    && s.net.ids == [c] && s.net.working.Keys == {c} && s.net.book.orders.Keys == {c}
    && CrossingSell(s.net.working[c], c) && s.net.working[c].req == s.net.book.orders[c].request
    && s.net.book.orders[c].state == Submitting && s.net.book.orders[c].filledQty == 0.0
    && Entering(s.office.tracks, X) && s.office.desk.positions == map[] && WellFormed(s.net.book)
  }

  lemma DemoSignal(t: F.Track)
    requires T.InBurst(t, F.FailedRetest, 12000.0, true)
    ensures var f := T.Burst(X, 13000.0, 99.0, 0.5, -1.0);
            var (t', sig) := F.StepTrack(T.DefaultConfig, t, f, Reversal, "trace");
            t'.state == F.SState.Entry && sig.Some?
            && sig.value.symbol == X && sig.value.side.Sell? && sig.value.reference == 99.0 && sig.value.stop == 100.3
  {
    T.EntryStep(t, X, 12000.0, 13000.0, "trace");
    assert F.StopPrice(T.DefaultConfig, t.(extreme := 100.0)) == 100.3;
  }

  lemma DemoQuantity(sig: Signal)
    requires sig.reference == 99.0 && sig.stop == 100.3
    ensures Z.Sizable(sig) && 10.0 <= Z.Quantity(DemoSizing, sig, 0, 0.0, 0.0)
  {
    assert Abs(sig.reference - sig.stop) == 1.3;
    assert 100.0 / 1.3 >= 20.0 && 2000.0 / 99.0 >= 20.0;
    assert Z.Size(DemoSizing, sig) >= 20.0;
    assert Z.Multiplier(DemoSizing, 0, 0.0, 0.0) == 1.0;
  }

  lemma DemoSubmitted(req: OrderRequest, q: Option<Quote>)
    requires req.limitPrice == Some(99.0)
    ensures var w := V.Submitted(DemoVenue, req, V.Ioc, q, 13000.0);
            && w.req == req && w.awaiting && w.limit == Some(99.0) && w.activateAt == 13250.0 && w.filled == 0.0
            && w.tif.Ioc?
  {
    hide V.JoinBehind;
  }

  lemma BlankSent(s: State, req: OrderRequest, reference: real, office: Office)
    requires Blank(s) && Entering(office.tracks, X) && office.desk == s.office.desk
    requires req.symbol == X && req.side.Sell? && req.intent.Entry? && 10.0 <= req.quantity
    requires req.limitPrice == Some(99.0)
    ensures WellFormed(s.net.book)
    ensures Waiting(Sent(Demo, s, req, V.Ioc, reference, 100.0, Some(1500.0), 0.0, 13000.0, office).0, req.coid)
  {
    hide Created, V.Submitted, Do, J.Coids, Entering;
    BlankCreates(req, reference);
    SentJoins(Demo, s, req, V.Ioc, reference, 100.0, Some(1500.0), 0.0, 13000.0, office);
    DemoSubmitted(req, S.LastQuote(s.net, X));
    assert V.Without([], req.coid) + [req.coid] == [req.coid];
  }

  lemma BlankEntry(s: State, sig: Signal, d: Decision, reference: real)
    requires Blank(s) && WellFormed(s.net.book) && d.approved && d.regime == 0 && d.volatility == 0.0
    requires d.plan == Plan(Some(99.0), V.Ioc, 1500.0)
    requires sig.symbol == X && sig.side.Sell? && sig.reference == 99.0 && sig.stop == 100.3
    requires Entering(s.office.tracks, X)
    ensures Waiting(Entered(Demo, s, sig, d, reference, 13000.0).0, I.NextId(s.seqs, EntryKey(sig, d)))
  {
    hide I.NextId, EntryKey, Created, Sent, Z.Quantity, WellFormed, Waiting, Entering;
    DemoQuantity(sig);
    var quantity := Z.Quantity(DemoSizing, sig, 0, 0.0, 0.0);
    var key := EntryKey(sig, d);
    var coid, s1 := I.NextId(s.seqs, key), Issue(s, key);
    var req := EntryRequest(sig, quantity, d.plan, coid);
    BlankCreates(req, reference);
    BlankSent(s1, req, reference, s1.office.(signals := s1.office.signals[coid := sig]));
    assert J.Coids([]) == [];
  }

  lemma BlankCreates(req: OrderRequest, reference: real)
    ensures WellFormed(Book([], map[], [], []))
    ensures !Created(Book([], map[], [], []), None, req, reference, 100.0, Some(1500.0), 0.0, 13000.0).raised
  {
  }

  lemma DemoEntry(s: State) returns (c: string)
    requires Blank(s) && T.InBurst(TrackX(s), F.FailedRetest, 12000.0, true)
    ensures WellFormed(s.net.book)
    ensures Waiting(Next(Demo, s, DemoEvent(T.Burst(X, 13000.0, 99.0, 0.5, -1.0))).0, c)
  {
    hide F.StepTrack, Fed, Entered, Waiting;
    var f := T.Burst(X, 13000.0, 99.0, 0.5, -1.0);
    var q, d := DemoQuote(13000.0, 1000.0), DemoDecision(f);
    BlankFed(s, q, 13000.0);
    DemoSignal(TrackX(s));
    var s1 := Fed(Demo, s, V.QuoteIn(q), 13000.0).0;
    var (s2, sig) := Stepped(Demo, s1, d);
    BlankEntry(s2, sig.value, d, Mid(q));
    c := I.NextId(s2.seqs, EntryKey(sig.value, d));
    hide Blank, EntryKey, I.NextId;
  }

  /** The whole order is taken by one quote. */
  lemma DemoReaction(w: Working, c: string, q: Quote)
    requires CrossingSell(w, c) && q == DemoQuote(14000.0, w.req.quantity)
    ensures V.React(DemoVenue, w, V.QuoteIn(q), 14000.0)
            == V.Reaction(None, [V.FillOf(w, w.req.quantity, 99.0, 14000.0)])
  {
    assert V.TakeLimit(DemoVenue, w.req.side, q) == w.req.quantity;
    hide V.TakeLimit;
  }

  lemma DemoFill(s: State, c: string)
    requires Rest(Demo, s) && Waiting(s, c)
    ensures var q := DemoQuote(14000.0, s.net.working[c].req.quantity);
            var (s', raised) := Engine.Deliver(Demo, s, V.QuoteIn(q), 14000.0);
            !raised && Stranded(s'.net.book, s'.office, X)
  {
    hide Rest, WellFormed, V.React, Handle, ApplyEvent, Completes;
    var w := s.net.working[c];
    var q := DemoQuote(14000.0, w.req.quantity);
    var ev := V.FillOf(w, w.req.quantity, 99.0, 14000.0);
    DemoReaction(w, c, q);
    DL.VisitOne(DemoVenue, c, s.net.working, V.QuoteIn(q), 14000.0);
    FillCompletes(s.net.book.orders[c], w);
    CompletingUnbooked(Demo, s.net.book, s.office, ev, 14000.0);
    EntryFillTaken(s.net.book, ev, 14000.0);
    EventProgress(s.net.book, ev, 14000.0);
    HandleNothing(Demo, Handle(Demo, s.net.book, s.office, ev, 14000.0).book,
                  Handle(Demo, s.net.book, s.office, ev, 14000.0).office, 14000.0);
    assert [ev][1..] == [];
    assert HandleAll(Demo, s.net.book, s.office, [ev], 14000.0) == Handle(Demo, s.net.book, s.office, ev, 14000.0);
    hide HandleAll, V.Visit, Progress;
  }

  lemma FillCompletes(o: ManagedOrder, w: Working)
    requires o.filledQty == 0.0 && o.request == w.req
    ensures Completes(o, V.FillOf(w, w.req.quantity, 99.0, 14000.0).fill)
  {
  }

  /** An input: a session from a fresh engine under the default settings that strands its symbol. */
  lemma StrandingSession() returns (events: seq<Event>, s: State)
    ensures Reached(Demo, 0.0, map[], events, s) && Stranded(s.net.book, s.office, X)
  {
    hide F.StepTrack, Next, Session, Waiting, Rest;
    var before, s0 := DemoBurst();
    var f := T.Burst(X, 13000.0, 99.0, 0.5, -1.0);
    var c := DemoEntry(s0);
    BurstDecided(f);
    SessionSnoc(Demo, Start(0.0, map[]), before, s0, DemoEvent(f));
    var s1 := Next(Demo, s0, DemoEvent(f)).0;
    StartRest(Demo, 0.0, map[]);
    SessionRest(Demo, Start(0.0, map[]), before + [DemoEvent(f)], s1);
    events, s := DemoEnd(before + [DemoEvent(f)], s1, c);
  }

  lemma DemoEnd(before: seq<Event>, s1: State, c: string) returns (events: seq<Event>, s: State)
    requires Session(Demo, Start(0.0, map[]), before, s1) && Rest(Demo, s1) && Waiting(s1, c)
    ensures Session(Demo, Start(0.0, map[]), events, s) && Stranded(s.net.book, s.office, X)
  {
    hide Session, Rest, Engine.Deliver, Engine.Tick, Stranded;
    RestBook(Demo, s1);
    var q := DemoQuote(14000.0, s1.net.working[c].req.quantity);
    var e := QuoteComes(q, None, 14000.0);
    DemoFill(s1, c);
    DeliverRest(Demo, s1, V.QuoteIn(q), 14000.0);
    var s2 := Engine.Deliver(Demo, s1, V.QuoteIn(q), 14000.0).0;
    TickStranded(Demo, s2, 14000.0, X);
    SessionSnoc(Demo, Start(0.0, map[]), before, s1, e);
    events, s := before + [e], Next(Demo, s1, e).0;
  }
}
