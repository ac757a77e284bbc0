/** Whole sessions of the engine, event by event. */
module EngineSessions {
  import opened Wrappers
  import opened RealMath
  import opened Models
  import opened Orders
  import opened OrderManagement
  import opened Protocol
  import opened Engine
  import opened EngineRuns
  import I = OrderIds
  import J = Journal
  import V = Venue
  import VR = VenueRuns
  import P = Positions
  import L = PositionLog
  import B = Booking
  import D = Drawdown
  import Z = Sizing
  import F = Fsm
  import S = SessionRuns
  import A = Agreement

  // ----- the invariant

  /** At most one open entry and one open exit per symbol, and no other orders. */
  ghost predicate Alone(b: Book) {
    && (forall c :: c in b.orders ==> !b.orders[c].request.intent.Flatten?)
    && (forall c, d :: c in b.orders && d in b.orders && Rivals(b.orders[c], b.orders[d]) ==> c == d)
  }

  predicate Rivals(o: ManagedOrder, o': ManagedOrder) {
    && !Terminal(o.state) && !Terminal(o'.state)
    && o.request.symbol == o'.request.symbol && o.request.intent == o'.request.intent
  }

  /** The counters have caught up with every recorded id, and every order is recorded. */
  ghost predicate IdsCovered(b: Book, seqs: map<string, nat>) {
    && (forall c :: c in J.Coids(b.rows) ==> I.Covered(seqs, c))
    && (forall c :: c in b.orders ==> c in J.Coids(b.rows))
  }

  predicate RivalTo(o: ManagedOrder, symbol: string, intent: Intent) {
    !Terminal(o.state) && o.request.symbol == symbol && o.request.intent == intent
  }

  ghost predicate Unrivalled(b: Book, symbol: string, intent: Intent) {
    forall c :: c in b.orders ==> !RivalTo(b.orders[c], symbol, intent)
  }

  /** The invariant of every session. */
  ghost predicate Rest(p: Params, s: State) {
    && WellFormed(s.net.book) && Carried(s.net.working, s.net.book) && Sound(p, s.net.book, s.office)
    && Alone(s.net.book) && IdsCovered(s.net.book, s.seqs)
  }

  predicate Sane(p: Params) {
    && DUST < p.venue.minShares
    && 0.0 <= p.sizing.riskPerTrade && 0.0 <= p.sizing.maxNotional && 0.0 <= p.sizing.maxShares
    && 0.0 <= p.sizing.sizeCap
    && 0.0 <= p.fsm.stopBps < 10000.0
  }

  /** The price is positive and the target less than the whole of it away. */
  predicate TargetInReach(c: F.Config, f: F.Feature) {
    0.0 < f.mid && -1.0 < Abs(f.residualReturn) * c.targetReversion < 1.0
  }

  /** Prices make sense, and plans are not fill-or-kill. */
  predicate Sensible(p: Params, d: Decision) { TargetInReach(p.fsm, d.feature) && !d.plan.tif.Fok? }

  // ----- deliveries and ticks

  lemma LaterAlone(b: Book, b': Book)
    requires Alone(b) && Later(b, b')
    ensures Alone(b')
  {
    hide WellFormed, Journals, Terminal;
    forall c | c in b'.orders ensures !b'.orders[c].request.intent.Flatten? { assert Follows(b.orders[c],
                                                                                             b'.orders[c]); }
    forall c, d | c in b'.orders && d in b'.orders && Rivals(b'.orders[c], b'.orders[d]) ensures c == d {
      assert Follows(b.orders[c], b'.orders[c]) && Follows(b.orders[d], b'.orders[d]);
    }
  }

  lemma LaterCovered(b: Book, b': Book, seqs: map<string, nat>)
    requires IdsCovered(b, seqs) && Later(b, b')
    ensures IdsCovered(b', seqs)
  {
    hide WellFormed, Follows, I.Covered;
  }

  lemma DeliverRest(p: Params, s: State, input: V.Input, now: Time)
    requires Rest(p, s) && DUST < p.venue.minShares
    ensures var (s', raised) := Engine.Deliver(p, s, input, now);
            (s'.net, raised) == S.Deliver(s.net, p.venue, input, now) && Rest(p, s')
  {
    hide V.Visit, HandleAll, ApplyAll, WellFormed, Later, Sound, Fits, CarriedOne, Carried, Fitting;
    VisitFits(p.venue, s.net.ids, s.net.working, s.net.book, input, now);
    var (working, events) := V.Visit(p.venue, s.net.ids, s.net.working, input, now);
    HandleAllSound(p, s.net.book, s.office, events, now);
    var h := HandleAll(p, s.net.book, s.office, events, now);
    AllWellFormed(p, s.net.book, s.office, events, now);
    LaterAlone(s.net.book, h.book);
    LaterCovered(s.net.book, h.book, s.seqs);
    CarriedOn(working, s.net.book, h.book);
    hide Alone, IdsCovered;
  }

  lemma SweepFillsOnly(p: Params, s: State, now: Time, mid: S.Net)
    requires S.SweptPointwise(s.net, p.venue, now, mid)
    ensures FillsOnly(s.net.book, mid.book, None)
  {
    hide A.SweptOrder, A.SweptWorking, WellFormed, Closes;
    forall c | c in s.net.book.orders ensures mid.book.orders[c].filledQty == s.net.book.orders[c].filledQty {
      S.SweptKeepsFills(s.net.book.orders[c], now);
    }
  }

  lemma SweepCarried(p: Params, s: State, now: Time, mid: S.Net)
    requires S.SweptPointwise(s.net, p.venue, now, mid) && Carried(s.net.working, s.net.book)
    requires Later(s.net.book, mid.book)
    ensures Carried(mid.working, mid.book)
  {
    hide A.SweptOrder, A.SweptWorking, WellFormed, Journals, CarriedOne, Follows;
    CarriedKnown(s.net.working, s.net.book);
    forall c | c in mid.working ensures CarriedOne(mid.working[c], mid.book) && mid.working[c].req.coid == c {
      assert Look(mid.working, c) == A.SweptWorking(p.venue, s.net.book.orders[c], Look(s.net.working, c), now);
      SweptCarriedOne(p.venue, s.net.working[c], s.net.book.orders[c], now);
      CarriedOver(s.net.working[c], mid.working[c], s.net.book, mid.book, c);
    }
  }

  lemma CarriedKnown(working: V.WorkingMap, b: Book)
    requires Carried(working, b)
    ensures forall c :: c in working ==> c in b.orders
  {
    hide VR.Placed, VR.Unfinished;
  }

  lemma SweptCarriedOne(cfg: V.Config, w: Working, o: ManagedOrder, now: Time)
    ensures A.SweptWorking(cfg, o, Some(w), now) == Some(w)
            || exists t :: A.SweptWorking(cfg, o, Some(w), now) == Some(w.(cancelAt := Some(t)))
  {
  }

  lemma CarriedOver(w: Working, w': Working, b: Book, b': Book, c: string)
    requires CarriedOne(w, b) && w.req.coid == c && c in b.orders && c in b'.orders
    requires Follows(b.orders[c], b'.orders[c])
    requires w' == w || exists t :: w' == w.(cancelAt := Some(t))
    ensures CarriedOne(w', b') && w'.req.coid == c
  {
    hide Terminal;
  }

  lemma SweptRest(p: Params, s: State, now: Time)
    requires Rest(p, s)
    ensures var mid := Engine.Swept(p, s, now); mid.net == S.Swept(s.net, p.venue, now) && Rest(p, mid)
  {
    hide Sweep, A.CancelAll, S.SweptPointwise, WellFormed, Later, Progress, FillsOnly, AllEnded, News, CarriedOne;
    CarriedKnown(s.net.working, s.net.book);
    S.SweepIsPointwise(s.net, p.venue, now);
    var net := S.Swept(s.net, p.venue, now);
    SweepProgress(s.net.book, s.net.book.ids, now);
    SweepWellFormed(s.net.book, s.net.book.ids, now);
    ProgressLater(s.net.book, net.book);
    SweepFillsOnly(p, s, now, net);
    SweepCarried(p, s, now, net);
    LaterAlone(s.net.book, net.book);
    LaterCovered(s.net.book, net.book, s.seqs);
    CallbacksSound(p, s.net.book, net.book, s.office, now, None);
    QuietSound(p, net.book, AllEnded(p, s.office, net.book.orders, News(s.net.book, net.book), now));
    hide Sound, AlmostSound, Alone, IdsCovered, Carried;
  }

  lemma TickRest(p: Params, s: State, now: Time)
    requires Rest(p, s) && DUST < p.venue.minShares
    ensures var (s', raised) := Engine.Tick(p, s, now);
            (s'.net, raised) == S.Tick(s.net, p.venue, now) && Rest(p, s')
  {
    hide Engine.Swept, Engine.Deliver, S.Swept, S.Deliver, WellFormed, Sound, Alone, IdsCovered, Carried;
    SweptRest(p, s, now);
    DeliverRest(p, Engine.Swept(p, s, now), V.PollIn, now);
  }

  /** The engine's handler is the pure order protocol as far as orders are concerned, refusals included. */
  lemma FedRest(p: Params, s: State, input: V.Input, now: Time)
    requires Rest(p, s) && DUST < p.venue.minShares
    ensures WellFormed(s.net.book)
    ensures var (s', raised) := Fed(p, s, input, now);
            (s'.net, raised) == S.Next(s.net, p.cap, p.venue, S.Market(input, now)) && Rest(p, s')
  {
    hide Engine.Tick, Engine.Deliver, S.Tick, S.Deliver, WellFormed, Sound, Alone, IdsCovered, Carried;
    DeliverRest(p, s, input, now);
    TickRest(p, Engine.Deliver(p, s, input, now).0, now);
  }

  // ----- evaluation

  lemma StopNotZero(c: F.Config, t: F.Track)
    requires 0.0 < t.extreme && t.direction in {1.0, -1.0} && 0.0 <= c.stopBps < 10000.0
    ensures F.StopPrice(c, t) != 0.0
  {
    var factor := 1.0 + t.direction * c.stopBps / 10000.0;
    NotZero(t.extreme, factor, F.StopPrice(c, t));
  }

  lemma TargetNotZero(c: F.Config, t: F.Track, f: F.Feature)
    requires t.direction in {1.0, -1.0} && TargetInReach(c, f)
    ensures F.TargetPrice(c, t, f) != 0.0
  {
    var part := Abs(f.residualReturn) * c.targetReversion;
    var factor := 1.0 - t.direction * part;
    assert factor == if t.direction == 1.0 then 1.0 - part else 1.0 + part;
    NotZero(f.mid, factor, F.TargetPrice(c, t, f));
  }

  lemma NotZero(a: real, b: real, product: real)
    requires 0.0 < a && 0.0 < b && product == a * b
    ensures product != 0.0
  {
  }

  predicate WellPriced(sig: Signal, f: F.Feature) {
    sig.symbol == f.symbol && sig.reference == f.mid && sig.stop != 0.0 && sig.target != 0.0
  }

  lemma AdvanceEnters(c: F.Config, t: F.Track, f: F.Feature, dwell: Time, trace: string)
    requires F.Armed(t.state) && Priced(t)
    ensures var (t', sig) := F.Advance(c, t, f, dwell, trace);
            && Priced(t') && (t'.state == F.SState.Entry <==> sig.Some?)
            && (sig.Some? ==> sig.value == F.SignalOf(c, t, f, trace) && t'.enteredAt == Some(f.ts))
  {
    hide F.Exhausted, F.NearExtreme, F.BookAgainst, F.SignalOf;
  }

  lemma InReach(c: F.Config, f: F.Feature)
    requires TargetInReach(c, f)
    ensures 0.0 < f.mid
  {
  }

  /** A track enters ENTRY only with a signal, whose levels are usable. */
  lemma StepEnters(c: F.Config, t: F.Track, f: F.Feature, action: GovernorAction, trace: string)
    requires Priced(t) && 0.0 <= c.stopBps < 10000.0 && TargetInReach(c, f)
    ensures var (t', sig) := F.StepTrack(c, t, f, action, trace);
            && Priced(t') && (t'.state == F.SState.Entry <==> sig.Some? || t.state == F.SState.Entry)
            && (sig.Some? ==> WellPriced(sig.value, f) && t'.enteredAt == Some(sig.value.ts))
            && (sig.None? && t.state == F.SState.Entry ==> t' == t)
  {
    InReach(c, f);
    hide F.Advance, F.ImpulseSeen, F.PeersConfirmedFast, F.StopPrice, F.TargetPrice, TargetInReach;
    if F.Armed(t.state) {
      var t1 := F.Follow(t, f);
      AdvanceEnters(c, t1, f, F.Dwell(t, f.ts), trace);
      StopNotZero(c, t1);
      TargetNotZero(c, t1, f);
    }
  }

  /** Everything but that one symbol may be waiting for an order that is not there yet. */
  ghost predicate RestBut(p: Params, s: State, symbol: string) {
    && Carried(s.net.working, s.net.book) && Alone(s.net.book) && IdsCovered(s.net.book, s.seqs)
    && WellFormed(s.net.book)
    && PendingSound(p, s.net.book, s.office) && TracksPriced(s.office.tracks) && DeskSound(p, s.office)
    && (forall x :: Entering(s.office.tracks, x) && x != symbol ==> HasEntry(s.net.book, s.office, x))
  }

  lemma SteppedRest(p: Params, s: State, d: Decision)
    requires Rest(p, s) && 0.0 <= p.fsm.stopBps < 10000.0 && TargetInReach(p.fsm, d.feature)
    ensures var (s', sig) := Stepped(p, s, d);
            && s'.net == s.net && s'.seqs == s.seqs
            && (sig.None? ==> Rest(p, s'))
            && (sig.Some? ==>
                  && RestBut(p, s', sig.value.symbol) && WellPriced(sig.value, d.feature)
                  && EnteredBy(s', sig.value))
  {
    hide F.StepTrack, TargetInReach, HasEntry, Carried, Alone, IdsCovered, PendingSound, DeskSound, WellFormed;
    var x0 := d.feature.symbol;
    StepEnters(p.fsm, F.TrackOf(s.office.tracks, x0), d.feature, d.action, d.trace);
    var (s', sig) := Stepped(p, s, d);
    SameDesk(p, s, s');
    forall x | Entering(s'.office.tracks, x) && (sig.Some? ==> x != x0) ensures HasEntry(s'.net.book, s'.office, x) {
      EntryOn(s.net.book, s.office, s'.office, x);
    }
  }

  /** The signal has led its symbol into ENTRY. */
  predicate EnteredBy(s: State, sig: Signal) {
    sig.symbol in s.office.tracks && s.office.tracks[sig.symbol].enteredAt == Some(sig.ts)
  }

  /** Tracks do not enter into what is pending or booked. */
  lemma SameDesk(p: Params, s: State, s': State)
    requires s'.office.(tracks := s.office.tracks) == s.office && s'.net == s.net
    ensures PendingSound(p, s'.net.book, s'.office) == PendingSound(p, s.net.book, s.office)
    ensures DeskSound(p, s'.office) == DeskSound(p, s.office)
  {
    hide Backs, Works, Held, D.InStep, B.PnlTotal;
  }

  lemma RefusedRest(p: Params, s: State, symbol: string, now: Time)
    requires RestBut(p, s, symbol)
    ensures var s' := Refused(p, s, symbol, now); s'.net == s.net && s'.seqs == s.seqs && Rest(p, s')
  {
    hide HasEntry, Carried, Alone, IdsCovered, PendingSound, DeskSound, WellFormed;
    var s' := Refused(p, s, symbol, now);
    SameDesk(p, s, s');
    forall x | Entering(s'.office.tracks, x) ensures HasEntry(s'.net.book, s'.office, x) {
      EntryOn(s.net.book, s.office, s'.office, x);
    }
  }

  // ----- ids

  lemma IssueCovered(s: State, key: string)
    requires IdsCovered(s.net.book, s.seqs)
    ensures var coid := I.NextId(s.seqs, key);
            && coid !in J.Coids(s.net.book.rows) && coid !in s.net.book.orders
            && IdsCovered(s.net.book, Issue(s, key).seqs) && I.Covered(Issue(s, key).seqs, coid)
  {
    var t := I.IdState(J.Coids(s.net.book.rows), s.seqs, {});
    I.FreshId(t, key);
    I.IdStepKeepsInv(t, I.Issue(key));
    hide I.Covered, I.NextId;
  }

  // ----- orders sent

  /** One more order, submitted and unfilled, on both sides; its id is recorded. */
  ghost predicate Joins(cfg: V.Config, s: State, s': State, req: OrderRequest, tif: V.Tif, q: Option<Quote>,
                        now: Time) {
    var b, b' := s.net.book, s'.net.book;
    && WellFormed(b') && b'.ids == b.ids + [req.coid]
    && req.coid !in b.orders && b'.orders.Keys == b.orders.Keys + {req.coid}
    && (forall c :: c in b.orders ==> b'.orders[c] == b.orders[c])
    && b'.orders[req.coid].request == req && b'.orders[req.coid].state == Submitting
    && b'.orders[req.coid].filledQty == 0.0
    && s'.net.working == s.net.working[req.coid := V.Submitted(cfg, req, tif, q, now)]
    && (forall c :: c in J.Coids(b'.rows) <==> c in J.Coids(b.rows) || c == req.coid)
    && s'.seqs == s.seqs
  }

  lemma SentRows(b: Book, cap: Option<real>, req: OrderRequest, reference: real, risk: real, ttl: Option<Time>,
                 activation: Time, now: Time)
    requires WellFormed(b)
    ensures var r := Created(b, cap, req, reference, risk, ttl, activation, now);
            !r.raised ==>
              var rows := Do(r.book, req.coid, MarkSubmitting, now).book.rows;
              forall c :: c in J.Coids(rows) <==> c in J.Coids(b.rows) || c == req.coid
  {
    hide WellFormed, ReservedNotional, HasActiveEntry;
    var r := Created(b, cap, req, reference, risk, ttl, activation, now);
    if !r.raised {
      var o := r.book.orders[req.coid];
      assert r.book.rows == b.rows + [RowOf(o)];
      J.CoidsSnoc(b.rows, RowOf(o));
      J.CoidsSnoc(r.book.rows, RowOf(Apply(o, MarkSubmitting, now).order));
    }
  }

  lemma SentJoins(p: Params, s: State, req: OrderRequest, tif: V.Tif, reference: real, risk: real, ttl: Option<Time>,
                  activation: Time, now: Time, office: Office)
    requires WellFormed(s.net.book) && !Created(s.net.book, p.cap, req, reference, risk, ttl, activation, now).raised
    ensures var (s', raised) := Sent(p, s, req, tif, reference, risk, ttl, activation, now, office);
            && !raised && s'.net == S.Submit(s.net, p.cap, p.venue, req, tif, reference, risk, ttl, activation, now).0
            && Joins(p.venue, s, s', req, tif, S.LastQuote(s.net, req.symbol), now) && s'.office == office
  {
    hide Created, Do, WellFormed, V.Submitted, V.Without, J.Coids;
    MarkedBook(s.net.book, p.cap, req, reference, risk, ttl, activation, now);
    SentRows(s.net.book, p.cap, req, reference, risk, ttl, activation, now);
  }

  lemma MarkedBook(b: Book, cap: Option<real>, req: OrderRequest, reference: real, risk: real, ttl: Option<Time>,
                   activation: Time, now: Time)
    requires WellFormed(b) && !Created(b, cap, req, reference, risk, ttl, activation, now).raised
    ensures var b1 := Created(b, cap, req, reference, risk, ttl, activation, now).book;
            var r := Do(b1, req.coid, MarkSubmitting, now);
            && !r.raised && WellFormed(r.book) && r.book.ids == b.ids + [req.coid]
            && req.coid !in b.orders && r.book.orders.Keys == b.orders.Keys + {req.coid}
            && (forall c :: c in b.orders ==> r.book.orders[c] == b.orders[c])
            && var o := r.book.orders[req.coid]; o.request == req && o.state == Submitting && o.filledQty == 0.0
  {
    S.CreatedShape(b, cap, req, reference, risk, ttl, activation, now);
    var r := Created(b, cap, req, reference, risk, ttl, activation, now);
    S.MarkFresh(r.book, r.book.orders[req.coid], now);
    hide Created, Do, WellFormed;
  }

  lemma JoinsCarried(cfg: V.Config, s: State, s': State, req: OrderRequest, tif: V.Tif, q: Option<Quote>, now: Time)
    requires Joins(cfg, s, s', req, tif, q, now) && Carried(s.net.working, s.net.book) && DUST < req.quantity
    requires !tif.Fok?
    ensures Carried(s'.net.working, s'.net.book)
  {
    hide V.Submitted, VR.Placed, VR.Unfinished, WellFormed, J.Coids;
    SubmittedCarried(cfg, req, tif, q, now);
  }

  lemma SubmittedCarried(cfg: V.Config, req: OrderRequest, tif: V.Tif, q: Option<Quote>, now: Time)
    requires DUST < req.quantity && !tif.Fok?
    ensures var w := V.Submitted(cfg, req, tif, q, now);
            w.req == req && VR.Placed(w) && VR.Unfinished(w) && !w.tif.Fok?
  {
    hide V.JoinBehind;
  }

  lemma JoinsAlone(cfg: V.Config, s: State, s': State, req: OrderRequest, tif: V.Tif, q: Option<Quote>, now: Time)
    requires Joins(cfg, s, s', req, tif, q, now) && Alone(s.net.book) && !req.intent.Flatten?
    requires Unrivalled(s.net.book, req.symbol, req.intent)
    ensures Alone(s'.net.book)
  {
    hide V.Submitted, Terminal, WellFormed;
  }

  lemma JoinsCovered(cfg: V.Config, s: State, s': State, req: OrderRequest, tif: V.Tif, q: Option<Quote>, now: Time)
    requires Joins(cfg, s, s', req, tif, q, now) && IdsCovered(s.net.book, s.seqs) && I.Covered(s.seqs, req.coid)
    ensures IdsCovered(s'.net.book, s'.seqs)
  {
    hide V.Submitted, I.Covered, WellFormed;
  }

  /** A new order is no entry of another symbol. */
  lemma JoinsHeld(cfg: V.Config, s: State, s': State, req: OrderRequest, tif: V.Tif, q: Option<Quote>, now: Time,
                  x: string)
    requires Joins(cfg, s, s', req, tif, q, now) && HasEntry(s.net.book, s.office, x)
    requires !(req.intent.Entry? && req.symbol == x) && s'.office.tracks == s.office.tracks
    requires forall c :: c in s.net.book.orders && c in s'.office.signals ==>
               c in s.office.signals && s'.office.signals[c] == s.office.signals[c]
    ensures HasEntry(s'.net.book, s'.office, x)
  {
    hide V.Submitted, WellFormed, Terminal;
    var b, b' := s.net.book, s'.net.book;
    var c :| HeldBy(b, s.office, c, x);
    var i :| LastAt(b, c, x, i);
    forall j | i < j < |b'.ids| ensures !IsEntry(b', b'.ids[j], x) {
      if j < |b.ids| { assert !IsEntry(b, b.ids[j], x); }
    }
    assert LastAt(b', c, x, i);
    assert HeldBy(b', s'.office, c, x);
  }

  /** The new entry of a symbol is its newest. */
  lemma JoinsNewest(cfg: V.Config, s: State, s': State, req: OrderRequest, tif: V.Tif, q: Option<Quote>, now: Time,
                    sig: Signal)
    requires Joins(cfg, s, s', req, tif, q, now) && req.intent.Entry? && EnteredBy(s', sig) && req.symbol == sig.symbol
    requires req.coid in s'.office.signals && s'.office.signals[req.coid] == sig
    ensures HasEntry(s'.net.book, s'.office, sig.symbol)
  {
    hide V.Submitted, WellFormed;
    assert LastAt(s'.net.book, req.coid, sig.symbol, |s.net.book.ids|);
    assert HeldBy(s'.net.book, s'.office, req.coid, sig.symbol);
  }

  lemma JoinsPending(p: Params, s: State, s': State, req: OrderRequest, tif: V.Tif, q: Option<Quote>, now: Time,
                     sig: Signal, reason: string)
    requires Joins(p.venue, s, s', req, tif, q, now) && PendingSound(p, s.net.book, s.office)
    requires req.intent.Entry? ==> Backs(p, sig, req)
    requires s'.office == if req.intent.Entry? then s.office.(signals := s.office.signals[req.coid := sig])
                          else s.office.(reasons := s.office.reasons[req.coid := reason])
    ensures PendingSound(p, s'.net.book, s'.office)
  {
    hide V.Submitted, Backs, Works, WellFormed, J.Coids;
    var o := s'.net.book.orders[req.coid];
    assert Works(o, true) <==> req.intent.Entry? by { WorksNew(o); }
    assert Works(o, false) <==> !req.intent.Entry? by { WorksNew(o); }
  }

  lemma WorksNew(o: ManagedOrder)
    requires o.state == Submitting
    ensures forall entry :: Works(o, entry) <==> o.request.intent.Entry? == entry
  {
  }

  lemma NoActive(b: Book, symbol: string, intent: Intent)
    requires if intent.Entry? then !HasActiveEntry(b.orders, symbol)
             else intent.Exit? && !HasActiveExit(b.orders, symbol)
    ensures Unrivalled(b, symbol, intent)
  {
    forall c | c in b.orders ensures !RivalTo(b.orders[c], symbol, intent) {
      if RivalTo(b.orders[c], symbol, intent) {
        if intent.Entry? { assert IsActiveEntry(b.orders[c], symbol); } else { assert IsActiveExit(b.orders[c],
                                                                                                   symbol); }
      }
    }
  }

  // ----- entries and exits

  lemma EntrySentRest(p: Params, s: State, sig: Signal, req: OrderRequest, plan: Plan, reference: real, now: Time)
    requires WellFormed(s.net.book) && RestBut(p, s, sig.symbol) && EnteredBy(s, sig) && !plan.tif.Fok?
    requires Backs(p, sig, req) && req.intent.Entry? && !HasActiveEntry(s.net.book.orders, sig.symbol)
    requires I.Covered(s.seqs, req.coid)
    ensures var (s', raised) := EntrySent(p, s, sig, req, plan, reference, now); !raised && Rest(p, s')
  {
    hide Created, Sent, WellFormed, Joins, HasActiveEntry, HasEntry, Unrivalled, Rest, RestBut, Backs;
    var ttl, risk := Some(plan.ttl), p.sizing.riskPerTrade;
    var (s', raised) := EntrySent(p, s, sig, req, plan, reference, now);
    if Created(s.net.book, p.cap, req, reference, risk, ttl, 0.0, now).raised {
      RefusedRest(p, s, sig.symbol, now);
    } else {
      BackedSymbol(p, sig, req);
      SentJoins(p, s, req, plan.tif, reference, risk, ttl, 0.0, now,
                s.office.(signals := s.office.signals[req.coid := sig]));
      NoActive(s.net.book, sig.symbol, Entry);
      EntryJoined(p, s, s', req, plan.tif, S.LastQuote(s.net, req.symbol), now, sig);
    }
  }

  lemma BackedSymbol(p: Params, sig: Signal, req: OrderRequest)
    requires Backs(p, sig, req)
    ensures req.symbol == sig.symbol && DUST < req.quantity
  {
  }

  lemma EntryJoined(p: Params, s: State, s': State, req: OrderRequest, tif: V.Tif, q: Option<Quote>, now: Time,
                    sig: Signal)
    requires RestBut(p, s, sig.symbol) && Joins(p.venue, s, s', req, tif, q, now) && Backs(p, sig, req)
    requires req.intent.Entry?
    requires Unrivalled(s.net.book, req.symbol, req.intent) && I.Covered(s.seqs, req.coid) && !tif.Fok?
    requires EnteredBy(s, sig)
    requires s'.office == s.office.(signals := s.office.signals[req.coid := sig])
    ensures Rest(p, s')
  {
    hide HasEntry, Carried, Alone, IdsCovered, PendingSound, Joins, Unrivalled, Held, D.InStep, B.PnlTotal, Entering,
         WellFormed, Backs;
    BackedSymbol(p, sig, req);
    JoinsBook(p.venue, s, s', req, tif, q, now);
    JoinsCarried(p.venue, s, s', req, tif, q, now);
    JoinsAlone(p.venue, s, s', req, tif, q, now);
    JoinsCovered(p.venue, s, s', req, tif, q, now);
    JoinsPending(p, s, s', req, tif, q, now, sig, "");
    JoinsNewest(p.venue, s, s', req, tif, q, now, sig);
    forall x | Entering(s'.office.tracks, x) && x != sig.symbol ensures HasEntry(s'.net.book, s'.office, x) {
      JoinsHeld(p.venue, s, s', req, tif, q, now, x);
    }
  }

  lemma JoinsBook(cfg: V.Config, s: State, s': State, req: OrderRequest, tif: V.Tif, q: Option<Quote>, now: Time)
    requires Joins(cfg, s, s', req, tif, q, now)
    ensures WellFormed(s'.net.book) && req.coid !in s.net.book.orders
  {
  }

  lemma ExitJoined(p: Params, s: State, s': State, req: OrderRequest, q: Option<Quote>, now: Time, reason: string)
    requires Rest(p, s) && Joins(p.venue, s, s', req, V.Day, q, now) && req.intent.Exit? && DUST < req.quantity
    requires Unrivalled(s.net.book, req.symbol, req.intent) && I.Covered(s.seqs, req.coid)
    requires s'.office == s.office.(reasons := s.office.reasons[req.coid := reason])
    ensures Rest(p, s')
  {
    hide HasEntry, Carried, Alone, IdsCovered, PendingSound, Joins, Unrivalled, Held, D.InStep, B.PnlTotal, Entering,
         WellFormed;
    JoinsBook(p.venue, s, s', req, V.Day, q, now);
    JoinsCarried(p.venue, s, s', req, V.Day, q, now);
    JoinsAlone(p.venue, s, s', req, V.Day, q, now);
    JoinsCovered(p.venue, s, s', req, V.Day, q, now);
    JoinsPending(p, s, s', req, V.Day, q, now, Signal("", 0.0, Buy, Reversal, 0.0, 0.0, 0.0, 0.0, ""), reason);
    forall x | Entering(s'.office.tracks, x) ensures HasEntry(s'.net.book, s'.office, x) {
      JoinsHeld(p.venue, s, s', req, V.Day, q, now, x);
    }
  }

  lemma ExitSentRest(p: Params, s: State, reason: string, req: OrderRequest, reference: real, now: Time)
    requires Rest(p, s) && DUST < req.quantity
    requires req.intent.Exit? && !HasActiveExit(s.net.book.orders, req.symbol) && I.Covered(s.seqs, req.coid)
    ensures WellFormed(s.net.book)
    ensures var (s', raised) := ExitSent(p, s, reason, req, reference, now); !raised && Rest(p, s')
  {
    hide Created, Sent, WellFormed, Joins, HasActiveExit, Unrivalled, Sound, Carried, Alone, IdsCovered;
    var (s', raised) := ExitSent(p, s, reason, req, reference, now);
    if !Created(s.net.book, p.cap, req, reference, 0.0, None, p.venue.latency, now).raised {
      var q := S.LastQuote(s.net, req.symbol);
      SentJoins(p, s, req, V.Day, reference, 0.0, None, p.venue.latency, now,
                s.office.(reasons := s.office.reasons[req.coid := reason]));
      NoActive(s.net.book, req.symbol, Exit);
      ExitJoined(p, s, s', req, q, now, reason);
    }
  }

  lemma QuantityWhole(p: Params, sig: Signal, d: Decision, loss: real)
    requires Z.Sizable(sig) && 0.0 < Z.Quantity(p.sizing, sig, d.regime, d.volatility, loss)
    ensures 1.0 <= Z.Quantity(p.sizing, sig, d.regime, d.volatility, loss)
  {
    hide Z.Size, Z.Multiplier;
  }

  /** A sized signal backs its order. */
  lemma SizedBacks(p: Params, sig: Signal, d: Decision, loss: real, coid: string)
    requires Sane(p) && 0.0 < sig.reference && sig.stop != 0.0 && sig.target != 0.0
    requires 0.0 < Z.Quantity(p.sizing, sig, d.regime, d.volatility, loss)
    ensures Backs(p, sig, EntryRequest(sig, Z.Quantity(p.sizing, sig, d.regime, d.volatility, loss), d.plan, coid))
  {
    QuantityWhole(p, sig, d, loss);
    Z.QuantityWithinBudget(p.sizing, sig, d.regime, d.volatility, loss);
    hide Z.Quantity, Z.WithinBudget;
  }

  lemma IssuedBut(p: Params, s: State, symbol: string, key: string)
    requires RestBut(p, s, symbol)
    ensures RestBut(p, Issue(s, key), symbol)
  {
    IssueCovered(s, key);
    hide HasEntry, Carried, Alone, IdsCovered, PendingSound, DeskSound;
  }

  lemma EnteredRest(p: Params, s: State, sig: Signal, d: Decision, reference: real, now: Time)
    requires WellFormed(s.net.book) && RestBut(p, s, sig.symbol) && EnteredBy(s, sig) && Sane(p) && Sensible(p, d)
    requires 0.0 < sig.reference && sig.stop != 0.0 && sig.target != 0.0
    ensures var (s', raised) := Entered(p, s, sig, d, reference, now); !raised && Rest(p, s')
  {
    hide WellFormed, HasActiveEntry, Rest, RestBut, EntrySent, Z.Quantity, Backs, TargetInReach, I.NextId, J.Coids,
         EntryKey, IdsCovered;
    RefusedRest(p, s, sig.symbol, now);
    var key := EntryKey(sig, d);
    IssuedBut(p, s, sig.symbol, key);
    ButCovered(p, s, sig.symbol);
    IssueCovered(s, key);
    var quantity := Z.Quantity(p.sizing, sig, d.regime, d.volatility, D.Loss(s.office.governor));
    if 0.0 < quantity && !HasActiveEntry(s.net.book.orders, sig.symbol) {
      var coid := I.NextId(s.seqs, key);
      SizedBacks(p, sig, d, D.Loss(s.office.governor), coid);
      EntrySentRest(p, Issue(s, key), sig, EntryRequest(sig, quantity, d.plan, coid), d.plan, reference, now);
    }
  }

  lemma ButCovered(p: Params, s: State, symbol: string)
    requires RestBut(p, s, symbol)
    ensures IdsCovered(s.net.book, s.seqs)
  {
  }

  lemma IssuedRest(p: Params, s: State, key: string)
    requires Rest(p, s)
    ensures Rest(p, Issue(s, key)) && I.Covered(Issue(s, key).seqs, I.NextId(s.seqs, key))
  {
    IssueCovered(s, key);
    hide WellFormed, Carried, Sound, Alone, IdsCovered;
  }

  lemma HeldMore(p: Params, s: State, symbol: string)
    requires Rest(p, s) && symbol in s.office.desk.positions
    ensures DUST < s.office.desk.positions[symbol].quantity
  {
    hide WellFormed, Carried, Alone, IdsCovered, PendingSound, EntriesHeld, TracksPriced, MoneySound, B.LogMirrors;
  }

  lemma ExitedRest(p: Params, s: State, symbol: string, reason: string, date: string, reference: real, now: Time)
    requires Rest(p, s)
    ensures WellFormed(s.net.book)
    ensures var (s', raised) := Exited(p, s, symbol, reason, date, reference, now); !raised && Rest(p, s')
  {
    hide WellFormed, Sound, Carried, Alone, IdsCovered, HasActiveExit, ExitSent, I.NextId, I.Key;
    if symbol in s.office.desk.positions && !HasActiveExit(s.net.book.orders, symbol) {
      var key := I.Key(date, symbol, Exit);
      IssuedRest(p, s, key);
      HeldMore(p, s, symbol);
      var req := ExitRequest(symbol, s.office.desk.positions[symbol], I.NextId(s.seqs, key));
      ExitSentRest(p, Issue(s, key), reason, req, reference, now);
    }
  }

  lemma EvaluatedRest(p: Params, s: State, q: Quote, d: Decision, now: Time)
    requires Rest(p, s) && Sane(p) && Sensible(p, d)
    ensures WellFormed(s.net.book)
    ensures var (s', raised) := Evaluated(p, s, q, d, now); !raised && Rest(p, s')
  {
    RestBook(p, s);
    hide WellFormed, Rest, RestBut, Exited, Entered, Stepped;
    if WantsExit(s, q, d) || d.emergency {
      ExitedRest(p, s, q.symbol, if WantsExit(s, q, d) then d.exit.value else "emergency_flatten", d.date, Mid(q), now);
    } else if !d.blocked {
      SteppedRest(p, s, d);
      var (s', sig) := Stepped(p, s, d);
      if sig.Some? {
        InReach(p.fsm, d.feature);
        EnteredRest(p, s', sig.value, d, Mid(q), now);
      }
    }
  }

  lemma RestBook(p: Params, s: State)
    requires Rest(p, s)
    ensures WellFormed(s.net.book)
  {
  }

  // ----- sessions

  datatype Event =
    | QuoteComes(quote: Quote, decision: Option<Decision>, now: Time)
    | TradeComes(trade: Trade, accepted: set<string>, now: Time)
    | TimerFires(now: Time)

  function Next(p: Params, s: State, e: Event): (State, bool)
    requires WellFormed(s.net.book)
  {
    match e
    case QuoteComes(q, decision, now) => Quoted(p, s, q, decision, now)
    case TradeComes(t, accepted, now) => Fed(p, s, V.TradeIn(t, accepted), now)
    case TimerFires(now) => Engine.Tick(p, s, now)
  }

  predicate Decided(p: Params, e: Event) { e.QuoteComes? && e.decision.Some? ==> Sensible(p, e.decision.value) }

  /**
   Any events at any times, with sensible decisions.  After a handler that raises, the session goes on from the
   state it left.
   */
  ghost predicate Session(p: Params, s: State, events: seq<Event>, s': State)
    decreases |events|
  {
    if events == [] then s' == s else
    WellFormed(s.net.book) && Decided(p, events[0]) && Session(p, Next(p, s, events[0]).0, events[1..], s')
  }

  lemma NextRest(p: Params, s: State, e: Event)
    requires Rest(p, s) && Sane(p) && Decided(p, e)
    ensures WellFormed(s.net.book) && Rest(p, Next(p, s, e).0)
  {
    hide WellFormed, Rest, Sensible, Fed, Evaluated, Engine.Tick;
    RestBook(p, s);
    match e
    case QuoteComes(q, decision, now) =>
      FedRest(p, s, V.QuoteIn(q), now);
      if decision.Some? { EvaluatedRest(p, Fed(p, s, V.QuoteIn(q), now).0, q, decision.value, now); }
    case TradeComes(t, accepted, now) => FedRest(p, s, V.TradeIn(t, accepted), now);
    case TimerFires(now) => TickRest(p, s, now);
  }

  lemma {:induction false} SessionRest(p: Params, s: State, events: seq<Event>, s': State)
    requires Rest(p, s) && Sane(p) && Session(p, s, events, s')
    ensures Rest(p, s')
    decreases |events|
  {
    hide Rest, Next, WellFormed, Sane, Decided;
    if events != [] {
      NextRest(p, s, events[0]);
      SessionRest(p, Next(p, s, events[0]).0, events[1..], s');
    }
  }

  /** A fresh engine on empty files; the id counters may be at any value. */
  function Start(t0: Time, seqs: map<string, nat>): State {
    State(S.Start(t0), Office(B.Empty, map[], map[], D.Untraded, D.Calm, [], map[]), seqs)
  }

  lemma StartRest(p: Params, t0: Time, seqs: map<string, nat>)
    ensures Rest(p, Start(t0, seqs))
  {
  }

  ghost predicate Reached(p: Params, t0: Time, seqs: map<string, nat>, events: seq<Event>, s: State) {
    Sane(p) && Session(p, Start(t0, seqs), events, s)
  }

  lemma ReachedRest(p: Params, t0: Time, seqs: map<string, nat>, events: seq<Event>, s: State)
    requires Reached(p, t0, seqs, events, s)
    ensures Rest(p, s)
  {
    StartRest(p, t0, seqs);
    SessionRest(p, Start(t0, seqs), events, s);
  }

  // ----- what every session keeps

  /**
   Pending work: a signal is pending for exactly the open entry orders and a reason for exactly the open exits;
   the order of a pending signal has its symbol, side and trace, and a size within its budgets; and no symbol has
   two open entries or two open exits.
   */
  lemma PendingIffOpen(p: Params, t0: Time, seqs: map<string, nat>, events: seq<Event>, s: State, c: string, d: string)
    requires Reached(p, t0, seqs, events, s)
    ensures c in s.office.signals <==>
              && c in s.net.book.orders && s.net.book.orders[c].request.intent.Entry?
              && !Terminal(s.net.book.orders[c].state)
    ensures c in s.office.reasons <==>
              && c in s.net.book.orders && s.net.book.orders[c].request.intent.Exit?
              && !Terminal(s.net.book.orders[c].state)
    ensures c in s.office.signals ==>
              var sig, req := s.office.signals[c], s.net.book.orders[c].request;
              && req.symbol == sig.symbol && req.side == sig.side && req.traceId == sig.traceId
              && 1.0 <= req.quantity && Z.WithinBudget(p.sizing, sig, req.quantity)
    ensures var orders := s.net.book.orders;
            c in orders && d in orders && Rivals(orders[c], orders[d]) ==> c == d
  {
    hide Carried, IdsCovered, Session, WellFormed, DeskSound, EntriesHeld, TracksPriced, Z.WithinBudget, Terminal;
    ReachedRest(p, t0, seqs, events, s);
  }

  /**
   Bookings: the position log would rebuild exactly the live positions, both risk layers and the ledger hold the
   total of the closed trades, and the risk manager knows exactly the symbols that have a position.
   */
  lemma BooksAgree(p: Params, t0: Time, seqs: map<string, nat>, events: seq<Event>, s: State, x: string)
    requires Reached(p, t0, seqs, events, s)
    ensures x in L.RebuiltBook(s.office.desk.rows) <==> x in s.office.desk.positions
    ensures x in s.office.desk.positions ==>
              L.ViewOf(L.RebuiltBook(s.office.desk.rows)[x]) == L.ViewOf(s.office.desk.positions[x])
    ensures s.office.totals.realized == s.office.governor.realized == D.DayOf(s.office.ledger, p.today).realized
            == B.PnlTotal(s.office.desk.closed)
    ensures s.office.governor.halted == D.DayOf(s.office.ledger, p.today).halted
    ensures s.office.totals.held == s.office.desk.positions.Keys
  {
    hide Carried, IdsCovered, Session, WellFormed, PendingSound, EntriesHeld, TracksPriced, Alone, L.Replay, L.Rebuilt,
         L.ViewOf, L.Mirrors, D.DayOf, B.PnlTotal, B.Recoverable;
    ReachedRest(p, t0, seqs, events, s);
    B.CrashMirrors(s.office.desk);
  }

  /**
   Signals: while a symbol is in ENTRY, the newest entry order of the symbol is either open, unfilled and that of
   the signal which led there, or was filled.  New ids are never taken.
   */
  lemma EntryHasOrder(p: Params, t0: Time, seqs: map<string, nat>, events: seq<Event>, s: State, x: string, key: string)
    requires Reached(p, t0, seqs, events, s)
    ensures Entering(s.office.tracks, x) ==>
              exists c :: Newest(s.net.book, c, x) && AwaitedOrFilled(s, c, x)
    ensures I.NextId(s.seqs, key) !in J.Coids(s.net.book.rows) && I.NextId(s.seqs, key) !in s.net.book.orders
  {
    hide Carried, Session, WellFormed, TracksPriced, DeskSound, Alone, IdsCovered, I.NextId, LastAt, Backs;
    ReachedRest(p, t0, seqs, events, s);
    IssueCovered(s, key);
    if Entering(s.office.tracks, x) {
      var c :| HeldBy(s.net.book, s.office, c, x);
      assert Newest(s.net.book, c, x) && AwaitedOrFilled(s, c, x);
    }
  }

  /** The order of the signal the symbol waits for, or one that was filled. */
  predicate AwaitedOrFilled(s: State, c: string, x: string)
    requires c in s.net.book.orders && x in s.office.tracks
  {
    var o := s.net.book.orders[c];
    || o.state == Filled
    || (!Terminal(o.state) && o.filledQty == 0.0 && c in s.office.signals
        && s.office.tracks[x].enteredAt == Some(s.office.signals[c].ts))
  }

  // ----- timely sessions

  /** A plan allows time for the acknowledgement and a tick. */
  predicate Roomy(p: Params, gap: Time, d: Decision) { gap < d.plan.ttl && p.venue.ackLatency + gap <= d.plan.ttl }

  /** Events come in order, at most `gap` after the tick before, with sensible and roomy decisions. */
  predicate Timely(p: Params, gap: Time, s: State, e: Event) {
    && s.net.tick <= e.now <= s.net.tick + gap && Decided(p, e)
    && (e.QuoteComes? && e.decision.Some? ==> Roomy(p, gap, e.decision.value))
  }

  ghost predicate TimelySession(p: Params, gap: Time, s: State, events: seq<Event>, s': State)
    decreases |events|
  {
    if events == [] then s' == s else
    && WellFormed(s.net.book) && Timely(p, gap, s, events[0])
    && TimelySession(p, gap, Next(p, s, events[0]).0, events[1..], s')
  }

  /** One order is submitted, or none. */
  ghost predicate Submits(p: Params, gap: Time, net: S.Net, net': S.Net, now: Time)
    requires WellFormed(net.book)
  {
    net' == net || exists e: S.Event :: SubmitsBy(p, gap, net, net', now, e)
  }

  ghost predicate SubmitsBy(p: Params, gap: Time, net: S.Net, net': S.Net, now: Time, e: S.Event)
    requires WellFormed(net.book)
  {
    && e.Submits? && e.now == now && DUST < e.req.quantity
    && (e.ttl.Some? ==> gap < e.ttl.value && p.venue.ackLatency + gap <= e.ttl.value)
    && net' == S.Next(net, p.cap, p.venue, e).0
  }

  lemma ExitSubmits(p: Params, gap: Time, s: State, symbol: string, reason: string, date: string, reference: real,
                    now: Time)
    requires Rest(p, s) && WellFormed(s.net.book)
    ensures Submits(p, gap, s.net, Exited(p, s, symbol, reason, date, reference, now).0.net, now)
  {
    hide WellFormed, Sound, Carried, Alone, IdsCovered, HasActiveExit, Created, S.Submit, I.NextId, I.Key;
    if symbol in s.office.desk.positions && !HasActiveExit(s.net.book.orders, symbol) {
      HeldMore(p, s, symbol);
      var coid := I.NextId(s.seqs, I.Key(date, symbol, Exit));
      var req := ExitRequest(symbol, s.office.desk.positions[symbol], coid);
      var e := S.Submits(req, V.Day, reference, 0.0, None, p.venue.latency, now);
      if !Created(s.net.book, p.cap, req, reference, 0.0, None, p.venue.latency, now).raised {
        assert SubmitsBy(p, gap, s.net, Exited(p, s, symbol, reason, date, reference, now).0.net, now, e);
      }
    }
  }

  lemma EntrySubmits(p: Params, gap: Time, s: State, sig: Signal, d: Decision, reference: real, now: Time)
    requires WellFormed(s.net.book) && Roomy(p, gap, d)
    ensures Submits(p, gap, s.net, Entered(p, s, sig, d, reference, now).0.net, now)
  {
    hide WellFormed, HasActiveEntry, Created, S.Submit, I.NextId, EntryKey, J.Coids, Z.Quantity;
    if Z.Sizable(sig) {
      var quantity := Z.Quantity(p.sizing, sig, d.regime, d.volatility, D.Loss(s.office.governor));
      var req := EntryRequest(sig, quantity, d.plan, I.NextId(s.seqs, EntryKey(sig, d)));
      var e := S.Submits(req, d.plan.tif, reference, p.sizing.riskPerTrade, Some(d.plan.ttl), 0.0, now);
      if 0.0 < quantity {
        QuantityWhole(p, sig, d, D.Loss(s.office.governor));
        if !Created(s.net.book, p.cap, req, reference, p.sizing.riskPerTrade, Some(d.plan.ttl), 0.0, now).raised {
          assert SubmitsBy(p, gap, s.net, S.Next(s.net, p.cap, p.venue, e).0, now, e);
        }
      }
    }
  }

  lemma EvaluatedSubmits(p: Params, gap: Time, s: State, q: Quote, d: Decision, now: Time)
    requires Rest(p, s) && WellFormed(s.net.book) && Roomy(p, gap, d)
    ensures Submits(p, gap, s.net, Evaluated(p, s, q, d, now).0.net, now)
  {
    hide WellFormed, Rest, Exited, Entered, F.StepTrack, Roomy;
    if WantsExit(s, q, d) || d.emergency {
      ExitSubmits(p, gap, s, q.symbol, if WantsExit(s, q, d) then d.exit.value else "emergency_flatten", d.date, Mid(q),
                  now);
    } else if !d.blocked {
      var (s', sig) := Stepped(p, s, d);
      if sig.Some? { EntrySubmits(p, gap, s', sig.value, d, Mid(q), now); }
    }
  }

  lemma SubmitsSound(p: Params, gap: Time, net: S.Net, net': S.Net, now: Time)
    requires S.Sound(net, p.venue, gap) && WellFormed(net.book) && DUST < p.venue.minShares && net.tick <= now
    requires Submits(p, gap, net, net', now)
    ensures S.Sound(net', p.venue, gap) && net'.tick == net.tick
  {
    hide S.Sound, WellFormed, Created, Do, V.Submitted, V.Without;
    if net' != net {
      var e: S.Event :| SubmitsBy(p, gap, net, net', now, e);
      S.NextSound(net, p.cap, p.venue, gap, e);
    }
  }

  /** In time, the engine's events raise nothing and keep the two books of orders in agreement. */
  lemma NextAgrees(p: Params, gap: Time, s: State, e: Event)
    requires S.Sound(s.net, p.venue, gap) && Rest(p, s) && Sane(p) && Timely(p, gap, s, e)
    ensures WellFormed(s.net.book)
    ensures var (s', raised) := Next(p, s, e); !raised && S.Sound(s'.net, p.venue, gap) && s'.net.tick == e.now
  {
    hide S.Sound, WellFormed, Rest, Sensible, Roomy, Fed, Evaluated, Engine.Tick, S.Tick, S.Deliver, Submits;
    RestBook(p, s);
    match e
    case QuoteComes(q, decision, now) =>
      FedRest(p, s, V.QuoteIn(q), now);
      MarketAgrees(p, gap, s.net, V.QuoteIn(q), now);
      var s1 := Fed(p, s, V.QuoteIn(q), now).0;
      if decision.Some? {
        RestBook(p, s1);
        EvaluatedRest(p, s1, q, decision.value, now);
        EvaluatedSubmits(p, gap, s1, q, decision.value, now);
        SubmitsSound(p, gap, s1.net, Evaluated(p, s1, q, decision.value, now).0.net, now);
      }
    case TradeComes(t, accepted, now) =>
      FedRest(p, s, V.TradeIn(t, accepted), now);
      MarketAgrees(p, gap, s.net, V.TradeIn(t, accepted), now);
    case TimerFires(now) =>
      TickRest(p, s, now);
      S.TickSound(s.net, p.venue, gap, now);
  }

  lemma MarketAgrees(p: Params, gap: Time, net: S.Net, input: V.Input, now: Time)
    requires S.Sound(net, p.venue, gap) && WellFormed(net.book) && DUST < p.venue.minShares
    requires net.tick <= now <= net.tick + gap && !input.PollIn?
    ensures var (net', raised) := S.Next(net, p.cap, p.venue, S.Market(input, now));
            !raised && S.Sound(net', p.venue, gap) && net'.tick == now
  {
    hide S.Sound, WellFormed, S.Deliver, S.Tick;
    S.MarketSound(net, p.venue, gap, input, now);
    S.TickSound(S.Deliver(net, p.venue, input, now).0, p.venue, gap, now);
  }

  lemma {:induction false} TimelySound(p: Params, gap: Time, s: State, events: seq<Event>, s': State)
    requires S.Sound(s.net, p.venue, gap) && Rest(p, s) && Sane(p) && TimelySession(p, gap, s, events, s')
    ensures S.Sound(s'.net, p.venue, gap) && Rest(p, s')
    decreases |events|
  {
    hide S.Sound, Rest, Next, WellFormed, Sane;
    if events != [] {
      hide Timely;
      TimelyDecided(p, gap, s, events[0]);
      NextRest(p, s, events[0]);
      NextAgrees(p, gap, s, events[0]);
      TimelySound(p, gap, Next(p, s, events[0]).0, events[1..], s');
    }
  }

  lemma TimelyDecided(p: Params, gap: Time, s: State, e: Event)
    requires Timely(p, gap, s, e)
    ensures Decided(p, e)
  {
  }

  /**
   Orders: in a timely session nothing the venue reports is refused, the manager has recorded exactly the shares
   reported, and the venue works no closed order.
   */
  lemma OrdersAgree(p: Params, gap: Time, t0: Time, seqs: map<string, nat>, events: seq<Event>, s: State, e: Event,
                    c: string)
    requires Sane(p) && TimelySession(p, gap, Start(t0, seqs), events, s) && Timely(p, gap, s, e)
    ensures WellFormed(s.net.book) && !Next(p, s, e).1
    ensures c in s.net.book.orders ==> s.net.book.orders[c].filledQty == Total(s.net.tape, c)
    ensures c in s.net.working ==>
              && c in s.net.book.orders && !Terminal(s.net.book.orders[c].state)
              && s.net.working[c].req == s.net.book.orders[c].request
              && s.net.working[c].filled == s.net.book.orders[c].filledQty
  {
    hide S.Sound, Rest, TimelySession, Next, WellFormed, Total;
    StartRest(p, t0, seqs);
    S.StartSound(p.venue, gap, t0);
    TimelySound(p, gap, Start(t0, seqs), events, s);
    NextAgrees(p, gap, s, e);
    AgreeAt(p, gap, s, c);
  }

  lemma AgreeAt(p: Params, gap: Time, s: State, c: string)
    requires S.Sound(s.net, p.venue, gap) && Rest(p, s)
    ensures c in s.net.book.orders ==> s.net.book.orders[c].filledQty == Total(s.net.tape, c)
    ensures c in s.net.working ==>
              && c in s.net.book.orders && !Terminal(s.net.book.orders[c].state)
              && s.net.working[c].req == s.net.book.orders[c].request
              && s.net.working[c].filled == s.net.book.orders[c].filledQty
  {
    hide Sound, Alone, IdsCovered, WellFormed, VR.Placed, VR.Unfinished, Total;
    if c in s.net.working {
      assert CarriedOne(s.net.working[c], s.net.book);
      assert A.Agree(p.venue, gap, s.net.tick, s.net.tick, s.net.book.orders[c], Look(s.net.working, c));
    }
  }

  // ----- the fill that completes an entry

  /** An entry order at the venue, and a fill of it. */
  predicate EntryFill(b: Book, ev: V.VenueEvent) {
    && ev.Fills? && ev.fill.coid == ev.coid && ev.coid in b.orders && b.orders[ev.coid].request.intent.Entry?
    && b.orders[ev.coid].state in {Submitting, Acknowledged, Partial, CancelPending}
  }

  predicate Completes(o: ManagedOrder, fill: Fill) { Left(o.request.quantity, o.filledQty + fill.quantity) <= DUST }

  lemma EntryFillTaken(b: Book, ev: V.VenueEvent, now: Time)
    requires WellFormed(b) && EntryFill(b, ev)
    ensures var o, r := b.orders[ev.coid], ApplyEvent(b, ev, now);
            && !r.raised && ev.coid in r.book.orders && r.book.orders[ev.coid].request == o.request
            && r.book.orders[ev.coid].state == (if Completes(o, ev.fill) then Filled else Partial)
            && News(b, r.book) == if Completes(o, ev.fill) then [ev.coid] else []
  {
    A.FillOn(b.orders[ev.coid], ev, now);
    EventChangesOnly(b, ev, ev.coid, now);
    EventOnFrame(b.orders[ev.coid], ev, now);
    NewsOfEvent(b, ev, now);
    hide ApplyEvent, EventOn, WellFormed, News;
  }

  /** The signal is gone before the booking looks for it. */
  lemma CompletingUnbooked(p: Params, b: Book, off: Office, ev: V.VenueEvent, now: Time)
    requires WellFormed(b) && EntryFill(b, ev) && Completes(b.orders[ev.coid], ev.fill)
    ensures var h := Handle(p, b, off, ev, now);
            && !h.raised && h.book == ApplyEvent(b, ev, now).book && h.office.desk == off.desk
            && h.office.tracks == off.tracks
  {
    EntryFillTaken(b, ev, now);
    hide ApplyEvent, WellFormed, News, AllEnded, Completes;
    EndedFilled(p, off, ApplyEvent(b, ev, now).book.orders, ev.coid, now);
  }

  lemma PartialBooked(p: Params, b: Book, off: Office, ev: V.VenueEvent, now: Time)
    requires WellFormed(b) && EntryFill(b, ev) && !Completes(b.orders[ev.coid], ev.fill) && ev.coid in off.signals
    requires 0.0 < ev.fill.quantity
    requires (ev.fill.symbol in off.desk.positions ==> 0.0 < off.desk.positions[ev.fill.symbol].quantity)
    ensures var h := Handle(p, b, off, ev, now);
            && !h.raised && |h.office.desk.rows| == |off.desk.rows| + 1 && ev.fill.symbol in h.office.desk.positions
  {
    EntryFillTaken(b, ev, now);
    hide ApplyEvent, WellFormed, News, Completes, P.Opened, P.Added, F.EntryFilled;
  }

  /**
   A fill of an open entry order is booked exactly when it leaves more than dust to fill.  The fill that
   completes the order reaches neither position nor log nor state machine, pending signal or not.
   */
  lemma EntryFillBookedIffOpen(p: Params, b: Book, off: Office, ev: V.VenueEvent, now: Time)
    requires WellFormed(b) && EntryFill(b, ev) && ev.coid in off.signals && 0.0 < ev.fill.quantity
    requires ev.fill.symbol in off.desk.positions ==> 0.0 < off.desk.positions[ev.fill.symbol].quantity
    ensures var h := Handle(p, b, off, ev, now);
            && !h.raised
            && (|h.office.desk.rows| == |off.desk.rows| + 1 <==> !Completes(b.orders[ev.coid], ev.fill))
            && (Completes(b.orders[ev.coid], ev.fill) ==> h.office.desk == off.desk && h.office.tracks == off.tracks)
  {
    hide Handle, ApplyEvent, WellFormed, Completes;
    if Completes(b.orders[ev.coid], ev.fill) {
      CompletingUnbooked(p, b, off, ev, now);
    } else {
      PartialBooked(p, b, off, ev, now);
    }
  }

  lemma NewsOfEvent(b: Book, ev: V.VenueEvent, now: Time)
    requires WellFormed(b) && ev.Fills? && ev.fill.coid == ev.coid && ev.coid in b.orders
    ensures var b' := ApplyEvent(b, ev, now).book;
            ev.coid in b'.orders && News(b, b') == if Closes(b.orders[ev.coid],
                                                             b'.orders[ev.coid]) then [ev.coid] else []
  {
    var op := Execution(ev.fill.quantity, ev.fill.price);
    ApplyCloses(b.orders[ev.coid], op, now);
    hide Apply, WellFormed;
  }

  lemma EndedFilled(p: Params, off: Office, orders: map<string, ManagedOrder>, coid: string, now: Time)
    requires coid in orders && orders[coid].state == Filled && orders[coid].request.coid == coid
    ensures var off' := AllEnded(p, off, orders, [coid], now);
            off'.tracks == off.tracks && off'.desk == off.desk && coid !in off'.signals
  {
    assert AllEnded(p, off, orders, [coid][..0], now) == off;
  }
}
