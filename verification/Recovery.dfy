/** A restart in the middle of a session: what a fresh engine reads back from the files. */
module Recovery {
  import opened Wrappers
  import opened RealMath
  import opened Models
  import opened Orders
  import opened OrderManagement
  import opened Protocol
  import opened Engine
  import opened EngineRuns
  import opened EngineSessions
  import I = OrderIds
  import J = Journal
  import R = OrderRuns
  import V = Venue
  import P = Positions
  import L = PositionLog
  import B = Booking
  import D = Drawdown
  import Z = Sizing
  import F = Fsm
  import S = SessionRuns
  import A = Agreement

  // ----- the journal keeps up with the manager

  lemma DoJournaled(b: Book, coid: string, op: Op, now: Time)
    requires WellFormed(b) && R.Journaled(b) && (op.Execution? ==> 0.0 <= op.quantity)
    ensures WellFormed(Do(b, coid, op, now).book) && R.Journaled(Do(b, coid, op, now).book)
  {
    DoKeepsWellFormed(b, coid, op, now);
    if coid in b.orders { R.PutJournaled(b, coid, op, now); }
    hide R.Journaled, WellFormed, Apply;
  }

  lemma EventJournaled(b: Book, ev: V.VenueEvent, now: Time)
    requires WellFormed(b) && R.Journaled(b) && Fits(ev, b)
    ensures WellFormed(ApplyEvent(b, ev, now).book) && R.Journaled(ApplyEvent(b, ev, now).book)
  {
    hide R.Journaled, WellFormed, Do;
    match ev
    case Acked(coid) => DoJournaled(b, coid, Ack, now);
    case CancelAcked(coid) =>
      DoJournaled(b, coid, RequestCancel, now);
      DoJournaled(b, coid, CancelAck, now);
      DoJournaled(Do(b, coid, RequestCancel, now).book, coid, CancelAck, now);
    case Rejects(coid) => DoJournaled(b, coid, Reject, now);
    case Fills(_, fill) => DoJournaled(b, fill.coid, Execution(fill.quantity, fill.price), now);
  }

  lemma {:induction false} AllJournaled(p: Params, b: Book, off: Office, events: seq<V.VenueEvent>, now: Time)
    requires WellFormed(b) && R.Journaled(b) && Sound(p, b, off) && Fitting(events, b)
    ensures R.Journaled(HandleAll(p, b, off, events, now).book)
    decreases |events|
  {
    hide Handle, ApplyEvent, Sound, WellFormed, Fits, Progress, R.Journaled;
    if events != [] {
      assert events[0] in events;
      HandleSound(p, b, off, events[0], now);
      var h := Handle(p, b, off, events[0], now);
      EventJournaled(b, events[0], now);
      FittingNext(events, b, h.book);
      hide Fitting;
      if !h.raised { AllJournaled(p, h.book, h.office, events[1..], now); }
    }
  }

  lemma DeliverJournaled(p: Params, s: State, input: V.Input, now: Time)
    requires Rest(p, s) && DUST < p.venue.minShares && R.Journaled(s.net.book)
    ensures R.Journaled(Engine.Deliver(p, s, input, now).0.net.book)
  {
    hide V.Visit, HandleAll, WellFormed, Sound, Carried, Fitting, R.Journaled, Alone, IdsCovered;
    VisitFits(p.venue, s.net.ids, s.net.working, s.net.book, input, now);
    var (working, events) := V.Visit(p.venue, s.net.ids, s.net.working, input, now);
    AllJournaled(p, s.net.book, s.office, events, now);
  }

  lemma TickJournaled(p: Params, s: State, now: Time)
    requires Rest(p, s) && DUST < p.venue.minShares && R.Journaled(s.net.book)
    ensures R.Journaled(Engine.Tick(p, s, now).0.net.book)
  {
    hide Sweep, A.CancelAll, AllEnded, News, WellFormed, Rest, Engine.Deliver, R.Journaled;
    RestBook(p, s);
    SweptRest(p, s, now);
    R.SweepJournaled(s.net.book, s.net.book.ids, now);
    DeliverJournaled(p, Engine.Swept(p, s, now), V.PollIn, now);
  }

  lemma FedJournaled(p: Params, s: State, input: V.Input, now: Time)
    requires Rest(p, s) && DUST < p.venue.minShares && R.Journaled(s.net.book)
    ensures R.Journaled(Fed(p, s, input, now).0.net.book)
  {
    hide Engine.Tick, Engine.Deliver, S.Deliver, Rest, R.Journaled;
    DeliverRest(p, s, input, now);
    DeliverJournaled(p, s, input, now);
    TickJournaled(p, Engine.Deliver(p, s, input, now).0, now);
  }

  lemma SentJournaled(p: Params, s: State, req: OrderRequest, tif: V.Tif, reference: real, risk: real,
                      ttl: Option<Time>,
                      activation: Time, now: Time, office: Office)
    requires WellFormed(s.net.book) && R.Journaled(s.net.book) && req.coid != ""
    ensures R.Journaled(Sent(p, s, req, tif, reference, risk, ttl, activation, now, office).0.net.book)
  {
    R.CreatedJournaled(s.net.book, p.cap, R.Opened(req, reference, risk, ttl, activation, now));
    var r := Created(s.net.book, p.cap, req, reference, risk, ttl, activation, now);
    DoJournaled(r.book, req.coid, MarkSubmitting, now);
    hide Created, Do, WellFormed, R.Journaled, V.Submitted, V.Without;
  }

  lemma EvaluatedJournaled(p: Params, s: State, q: Quote, d: Decision, now: Time)
    requires WellFormed(s.net.book) && R.Journaled(s.net.book)
    ensures R.Journaled(Evaluated(p, s, q, d, now).0.net.book)
  {
    hide WellFormed, R.Journaled, Sent, Created, HasActiveEntry, HasActiveExit, F.StepTrack, Z.Quantity, I.NextId,
         J.Coids, F.EntryFailed;
    forall s1: State, req: OrderRequest, tif: V.Tif, reference: real, risk: real, ttl: Option<Time>, activation: Time,
           office: Office | s1.net == s.net && req.coid != ""
      ensures R.Journaled(Sent(p, s1, req, tif, reference, risk, ttl, activation, now, office).0.net.book)
    {
      SentJournaled(p, s1, req, tif, reference, risk, ttl, activation, now, office);
    }
    forall key: string ensures I.NextId(s.seqs, key) != "" { NextNotEmpty(s.seqs, key); }
  }

  lemma NextNotEmpty(seqs: map<string, nat>, key: string)
    ensures I.NextId(seqs, key) != ""
  {
    PrintedNotEmpty(key, I.Counter(seqs, key) + 1);
    hide I.Print, I.Counter;
  }

  lemma NextJournaled(p: Params, s: State, e: Event)
    requires Rest(p, s) && Sane(p) && Decided(p, e) && R.Journaled(s.net.book)
    ensures WellFormed(s.net.book) && R.Journaled(Next(p, s, e).0.net.book)
  {
    hide WellFormed, Rest, Sensible, Fed, Evaluated, Engine.Tick, R.Journaled;
    RestBook(p, s);
    match e
    case QuoteComes(q, decision, now) =>
      FedJournaled(p, s, V.QuoteIn(q), now);
      FedRest(p, s, V.QuoteIn(q), now);
      if decision.Some? {
        RestBook(p, Fed(p, s, V.QuoteIn(q), now).0);
        EvaluatedJournaled(p, Fed(p, s, V.QuoteIn(q), now).0, q, decision.value, now);
      }
    case TradeComes(t, accepted, now) => FedJournaled(p, s, V.TradeIn(t, accepted), now);
    case TimerFires(now) => TickJournaled(p, s, now);
  }

  lemma {:induction false} SessionJournaled(p: Params, s: State, events: seq<Event>, s': State)
    requires Rest(p, s) && Sane(p) && Session(p, s, events, s') && R.Journaled(s.net.book)
    ensures R.Journaled(s'.net.book)
    decreases |events|
  {
    hide Rest, Next, WellFormed, Sane, Decided, R.Journaled;
    if events != [] {
      NextRest(p, s, events[0]);
      NextJournaled(p, s, events[0]);
      SessionJournaled(p, Next(p, s, events[0]).0, events[1..], s');
    }
  }

  // ----- the restart

  /** What `recover` leaves in a fresh engine whose files are those of the given session. */
  ghost predicate RestartedFrom(p: Params, files: State, s: State) {
    && Reopened(Book([], map[], files.net.book.rows, []), s.net.book)
    && s.net.ids == [] && s.net.working == map[] && s.net.quotes == map[]
    && s.office.desk.positions == L.RebuiltBook(files.office.desk.rows) && s.office.desk.rows == files.office.desk.rows
    && s.office.signals == map[] && s.office.reasons == map[] && s.office.tracks == map[]
    && s.office.ledger == files.office.ledger
    && var day := D.DayOf(files.office.ledger, p.today);
       s.office.governor == D.Restored(day)
       && s.office.totals == D.Holding(D.Untraded, L.RebuiltBook(files.office.desk.rows).Keys)
                             .(realized := day.realized, losses := day.losses)
  }

  /**
   Whenever the engine is restarted, in any session, it comes back with exactly the open orders of the live one,
   each with its request and state and at most its filled quantity; with the same positions; and with the same
   realized P&L and halt.
   */
  lemma RestartMatchesLive(p: Params, t0: Time, seqs: map<string, nat>, events: seq<Event>, live: State, s: State,
                           c: string, x: string)
    requires Reached(p, t0, seqs, events, live) && RestartedFrom(p, live, s)
    ensures c in s.net.book.orders <==> Active(live.net.book, c)
    ensures c in s.net.book.orders ==>
              && s.net.book.orders[c].request == live.net.book.orders[c].request
              && s.net.book.orders[c].state == live.net.book.orders[c].state
              && s.net.book.orders[c].filledQty <= live.net.book.orders[c].filledQty
    ensures x in s.office.desk.positions <==> x in live.office.desk.positions
    ensures x in s.office.desk.positions ==>
              L.ViewOf(s.office.desk.positions[x]) == L.ViewOf(live.office.desk.positions[x])
    ensures s.office.totals.realized == s.office.governor.realized == live.office.totals.realized
    ensures s.office.governor.halted == live.office.governor.halted
    ensures s.office.totals.held == live.office.totals.held
  {
    hide Session, Rest, Sane, L.RebuiltBook, L.ViewOf, D.DayOf, J.Latest, WellFormed, B.PnlTotal;
    BooksAgree(p, t0, seqs, events, live, x);
    LiveJournaled(p, t0, seqs, events, live);
    if c in live.net.book.orders {
      assert R.Matches(J.Latest(live.net.book.rows, c).value, live.net.book.orders[c]);
    }
    SymbolsRebuilt(p, t0, seqs, events, live);
  }

  lemma LiveJournaled(p: Params, t0: Time, seqs: map<string, nat>, events: seq<Event>, live: State)
    requires Reached(p, t0, seqs, events, live)
    ensures R.Journaled(live.net.book)
  {
    hide Session, Rest, Sane;
    StartRest(p, t0, seqs);
    assert R.Journaled(Start(t0, seqs).net.book);
    SessionJournaled(p, Start(t0, seqs), events, live);
  }

  lemma SymbolsRebuilt(p: Params, t0: Time, seqs: map<string, nat>, events: seq<Event>, live: State)
    requires Reached(p, t0, seqs, events, live)
    ensures L.RebuiltBook(live.office.desk.rows).Keys == live.office.totals.held
  {
    hide Session, L.RebuiltBook, L.ViewOf, D.DayOf, B.PnlTotal;
    BooksAgree(p, t0, seqs, events, live, "");
    forall x ensures x in L.RebuiltBook(live.office.desk.rows) <==> x in live.office.desk.positions {
      BooksAgree(p, t0, seqs, events, live, x);
    }
  }
}
