/** What is accepted: when an evaluation must lead to an order, to which one, and when to none. */
module Acceptance {
  import opened Wrappers
  import opened RealMath
  import opened Models
  import opened Orders
  import opened OrderManagement
  import opened Protocol
  import opened Engine
  import opened EngineRuns
  import opened EngineSessions
  import I = OrderIds
  import J = Journal
  import D = Drawdown
  import V = Venue
  import P = Positions
  import Z = Sizing
  import F = Fsm
  import S = SessionRuns
  import A = Agreement

  /** The order is open, of this symbol and for this purpose. */
  predicate OpenOrder(b: Book, c: string, x: string, intent: Intent) {
    c in b.orders && !Terminal(b.orders[c].state) && b.orders[c].request.symbol == x
    && b.orders[c].request.intent == intent
  }

  ghost predicate NoneOpen(b: Book, x: string, intent: Intent) { forall c :: !OpenOrder(b, c, x, intent) }

  /** The cap, if there is one, leaves room for this much besides all that open orders have reserved. */
  ghost predicate Room(cap: Option<real>, b: Book, amount: real)
    requires WellFormed(b)
  {
    cap.None? || ReservedNotional(b.ids, b.orders) + amount <= cap.value
  }

  /** What an order of this size reserves at this price. */
  function Commits(quantity: real, price: real): real { quantity * price }

  /**
   Exactly one order is added.  The manager has it as submitted, the venue has it with nothing filled, it is the
   only open one of its symbol and purpose, and all other orders are as before on both sides.
   */
  ghost predicate Gains(s: State, s': State, c: string, x: string, intent: Intent) {
    var b, b' := s.net.book, s'.net.book;
    && c !in b.orders && b'.orders.Keys == b.orders.Keys + {c}
    && (forall d :: d in b.orders ==> b'.orders[d] == b.orders[d])
    && b'.orders[c].state == Submitting && b'.orders[c].filledQty == 0.0
    && (forall d :: OpenOrder(b', d, x, intent) <==> d == c)
    && s'.net.working.Keys == s.net.working.Keys + {c}
    && (forall d :: d in s.net.working ==> s'.net.working[d] == s.net.working[d])
    && s'.net.working[c].req == b'.orders[c].request && s'.net.working[c].filled == 0.0
    && s'.net.working[c].cancelAt.None? && s'.net.ids == V.Without(s.net.ids, c) + [c]
  }

  // ----- the order manager

  lemma ActiveOpen(b: Book, x: string)
    ensures NoneOpen(b, x, Entry) <==> !HasActiveEntry(b.orders, x)
    ensures NoneOpen(b, x, Exit) <==> !HasActiveExit(b.orders, x)
  {
    if c :| OpenOrder(b, c, x, Entry) { assert IsActiveEntry(b.orders[c], x); }
    if c :| c in b.orders && IsActiveEntry(b.orders[c], x) { assert OpenOrder(b, c, x, Entry); }
    if c :| OpenOrder(b, c, x, Exit) { assert IsActiveExit(b.orders[c], x); }
    if c :| c in b.orders && IsActiveExit(b.orders[c], x) { assert OpenOrder(b, c, x, Exit); }
  }

  /**
   The manager takes every request under a new id that the cap has room for, unless it is an entry for a symbol
   with an open entry; whatever else is open does not matter.
   */
  lemma CreatedUnless(b: Book, cap: Option<real>, req: OrderRequest, reference: real, risk: real, ttl: Option<Time>,
                      activation: Time, now: Time)
    requires WellFormed(b) && 0.0 <= req.quantity
    ensures Created(b, cap, req, reference, risk, ttl, activation, now).raised
            <==> req.coid in b.orders || (req.intent.Entry? && !NoneOpen(b, req.symbol, Entry))
                 || !Room(cap, b, Commits(req.quantity, reference))
  {
    ActiveOpen(b, req.symbol);
    hide WellFormed, ReservedNotional, HasActiveEntry, NoneOpen;
  }

  // ----- orders sent

  /** What the manager fixes when it creates an order. */
  ghost predicate FixedAs(o: ManagedOrder, reference: real, risk: real, ttl: Option<Time>, activation: Time,
                          now: Time) {
    && o.reservedNotional == o.request.quantity * reference && o.reservedRisk == risk && o.createdAt == Some(now)
    && (if ttl.Some? then o.expireAt == Some(now + ttl.value) else o.expireAt == None)
    && (o.activateAt.Some? <==> o.request.orderType.Market? && 0.0 < activation)
    && (o.activateAt.Some? ==> o.activateAt.value == now + activation)
  }

  lemma SentFixed(b: Book, cap: Option<real>, req: OrderRequest, reference: real, risk: real, ttl: Option<Time>,
                  activation: Time, now: Time)
    requires WellFormed(b) && !Created(b, cap, req, reference, risk, ttl, activation, now).raised && 0.0 <= req.quantity
    ensures var orders := Do(Created(b, cap, req, reference, risk, ttl, activation, now).book, req.coid, MarkSubmitting,
                             now).book.orders;
            req.coid in orders && FixedAs(orders[req.coid], reference, risk, ttl, activation, now)
  {
    hide WellFormed, ReservedNotional, HasActiveEntry;
  }

  lemma JoinsGains(p: Params, s: State, s': State, req: OrderRequest, tif: V.Tif, q: Option<Quote>, now: Time)
    requires Joins(p.venue, s, s', req, tif, q, now) && NoneOpen(s.net.book, req.symbol, req.intent)
    requires Carried(s.net.working, s.net.book) && s'.net.ids == V.Without(s.net.ids, req.coid) + [req.coid]
    ensures Gains(s, s', req.coid, req.symbol, req.intent)
  {
    hide WellFormed, CarriedOne, J.Coids;
    CarriedKnown(s.net.working, s.net.book);
    var b, b' := s.net.book, s'.net.book;
    forall d ensures OpenOrder(b', d, req.symbol, req.intent) <==> d == req.coid {
      assert !OpenOrder(b, d, req.symbol, req.intent);
    }
  }

  /** An accepted order is added as it was asked for. */
  lemma SentGains(p: Params, s: State, req: OrderRequest, tif: V.Tif, reference: real, risk: real, ttl: Option<Time>,
                  activation: Time, now: Time, office: Office)
    requires WellFormed(s.net.book) && !Created(s.net.book, p.cap, req, reference, risk, ttl, activation, now).raised
    requires NoneOpen(s.net.book, req.symbol, req.intent) && Carried(s.net.working, s.net.book) && 0.0 <= req.quantity
    ensures var (s', raised) := Sent(p, s, req, tif, reference, risk, ttl, activation, now, office);
            && !raised && Gains(s, s', req.coid, req.symbol, req.intent) && s'.office == office
            && s'.net.book.orders[req.coid].request == req
            && s'.net.working[req.coid] == V.Submitted(p.venue, req, tif, S.LastQuote(s.net, req.symbol), now)
            && FixedAs(s'.net.book.orders[req.coid], reference, risk, ttl, activation, now)
  {
    hide Created, Do, WellFormed, V.Without, V.Submitted, J.Coids, Carried, NoneOpen, FixedAs, Joins, Gains;
    SentFixed(s.net.book, p.cap, req, reference, risk, ttl, activation, now);
    SentJoins(p, s, req, tif, reference, risk, ttl, activation, now, office);
    CarriedKnown(s.net.working, s.net.book);
    SentListed(p, s, req, tif, reference, risk, ttl, activation, now, office);
    var s' := Sent(p, s, req, tif, reference, risk, ttl, activation, now, office).0;
    JoinsGains(p, s, s', req, tif, S.LastQuote(s.net, req.symbol), now);
  }

  lemma SentListed(p: Params, s: State, req: OrderRequest, tif: V.Tif, reference: real, risk: real, ttl: Option<Time>,
                   activation: Time, now: Time, office: Office)
    requires WellFormed(s.net.book) && !Created(s.net.book, p.cap, req, reference, risk, ttl, activation, now).raised
    requires forall c :: c in s.net.working ==> c in s.net.book.orders
    ensures var s' := Sent(p, s, req, tif, reference, risk, ttl, activation, now, office).0;
            && s'.net.ids == V.Without(s.net.ids, req.coid) + [req.coid]
            && req.coid in s'.net.working
            && s'.net.working[req.coid] == V.Submitted(p.venue, req, tif, S.LastQuote(s.net, req.symbol), now)
            && req.coid in s'.net.book.orders && s'.net.book.orders[req.coid].request == req
            && s'.net.book == Do(Created(s.net.book, p.cap, req, reference, risk, ttl, activation, now).book, req.coid,
                                 MarkSubmitting, now).book
  {
    hide Created, Do, WellFormed, V.Without, V.Submitted;
    S.CreatedShape(s.net.book, p.cap, req, reference, risk, ttl, activation, now);
    MarkedBook(s.net.book, p.cap, req, reference, risk, ttl, activation, now);
  }

  /** The venue works the order as submitted at this moment, on the last quote of its symbol. */
  ghost predicate PlacedAs(p: Params, s: State, s': State, c: string, tif: V.Tif, now: Time)
    requires c in s'.net.working && c in s'.net.book.orders
  {
    var req := s'.net.book.orders[c].request;
    s'.net.working[c] == V.Submitted(p.venue, req, tif, S.LastQuote(s.net, req.symbol), now)
  }

  // ----- exits

  /** Somebody wants the position in the quoted symbol closed: the exit rules, or an emergency. */
  predicate ExitDue(s: State, q: Quote, d: Decision) {
    q.symbol in s.office.desk.positions && (d.exit.Some? || d.emergency)
  }

  /** A market order for exactly the opposite of the position. */
  predicate Flattens(req: OrderRequest, pos: P.Position, x: string) {
    && req.intent.Exit? && req.symbol == x && req.traceId == pos.traceId
    && req.orderType.Market? && req.limitPrice.None?
    && 0.0 < req.quantity && req.side.Sign() * req.quantity + pos.side.Sign() * pos.quantity == 0.0
  }

  /** An order that flattens the position is open now, at the manager and at the venue, with this reason pending. */
  ghost predicate Leaves(p: Params, s: State, s': State, c: string, pos: P.Position, x: string, reason: string,
                         mid: real, now: Time) {
    && Gains(s, s', c, x, Exit) && Flattens(s'.net.book.orders[c].request, pos, x)
    && PlacedAs(p, s, s', c, V.Day, now) && FixedAs(s'.net.book.orders[c], mid, 0.0, None, p.venue.latency, now)
    && s'.office == s.office.(reasons := s.office.reasons[c := reason])
  }

  lemma ExitOutcome(p: Params, s: State, x: string, reason: string, date: string, mid: real, now: Time)
    requires Rest(p, s) && x in s.office.desk.positions
    ensures WellFormed(s.net.book)
    ensures var (s', raised) := Exited(p, s, x, reason, date, mid, now);
            var pos := s.office.desk.positions[x];
            && !raised
            && (NoneOpen(s.net.book, x, Exit) && Room(p.cap, s.net.book, Commits(pos.quantity, mid)) ==>
                  exists c :: Leaves(p, s, s', c, pos, x, reason, mid, now))
            && (!(NoneOpen(s.net.book, x, Exit) && Room(p.cap, s.net.book, Commits(pos.quantity, mid))) ==>
                  s'.net == s.net && s'.office == s.office)
  {
    hide WellFormed, Sound, Carried, Alone, IdsCovered, HasActiveExit, Created, Sent, I.NextId, I.Key, NoneOpen, Room,
         Gains, FixedAs, Commits;
    ActiveOpen(s.net.book, x);
    HeldMore(p, s, x);
    var pos, key := s.office.desk.positions[x], I.Key(date, x, Exit);
    var coid := I.NextId(s.seqs, key);
    IssueCovered(s, key);
    var req := ExitRequest(x, pos, coid);
    CreatedUnless(s.net.book, p.cap, req, mid, 0.0, None, p.venue.latency, now);
    if NoneOpen(s.net.book, x, Exit) && Room(p.cap, s.net.book, Commits(pos.quantity, mid)) {
      var t := Issue(s, key);
      SentGains(p, t, req, V.Day, mid, 0.0, None, p.venue.latency, now,
                t.office.(reasons := t.office.reasons[coid := reason]));
      var s' := Exited(p, s, x, reason, date, mid, now).0;
      GainsIssued(s, t, s', coid, x, Exit);
      assert Leaves(p, s, s', coid, pos, x, reason, mid, now);
    }
  }

  lemma GainsIssued(s: State, t: State, s': State, c: string, x: string, intent: Intent)
    requires Gains(t, s', c, x, intent) && t.net == s.net
    ensures Gains(s, s', c, x, intent)
  {
  }

  /**
   In every session, whatever the spacing of its ticks: an exit that is due is accepted exactly when no exit of
   the symbol is open and the cap has room for it at the mid price, open entries of the symbol notwithstanding.
   Then one market order for exactly the opposite of the position is open at the manager and at the venue; else
   nothing changes.
   */
  lemma ExitAccepted(p: Params, t0: Time, seqs: map<string, nat>, events: seq<Event>, s: State, q: Quote, d: Decision,
                     now: Time)
    requires Reached(p, t0, seqs, events, s) && ExitDue(s, q, d)
    ensures WellFormed(s.net.book)
    ensures var (s', raised) := Evaluated(p, s, q, d, now);
            var pos, mid := s.office.desk.positions[q.symbol], (q.bid + q.ask) / 2.0;
            var reason := if d.exit.Some? then d.exit.value else "emergency_flatten";
            && !raised
            && (NoneOpen(s.net.book, q.symbol, Exit) && Room(p.cap, s.net.book, Commits(pos.quantity, mid)) ==>
                  exists c :: Leaves(p, s, s', c, pos, q.symbol, reason, mid, now))
            && (!(NoneOpen(s.net.book, q.symbol, Exit) && Room(p.cap, s.net.book, Commits(pos.quantity, mid))) ==>
                  s'.net == s.net && s'.office == s.office)
  {
    hide Session, Rest, Exited, Entered, Stepped, WellFormed, Leaves, NoneOpen, Room, Commits;
    ReachedRest(p, t0, seqs, events, s);
    var reason := if d.exit.Some? then d.exit.value else "emergency_flatten";
    ExitOutcome(p, s, q.symbol, reason, d.date, (q.bid + q.ask) / 2.0, now);
  }

  // ----- entries

  /** The signal's order: its symbol, side and trace, the sized quantity, and the plan's limit if it names one. */
  predicate Opens(req: OrderRequest, sig: Signal, quantity: real, limit: Option<real>) {
    && req.intent.Entry? && req.symbol == sig.symbol && req.side == sig.side && req.traceId == sig.traceId
    && req.quantity == quantity && req.limitPrice == limit
    && (req.orderType.Limit? <==> limit.Some? && limit.value != 0.0)
  }

  /** The order of the signal is open now, at the manager and at the venue, and the signal is pending for it. */
  ghost predicate Enters(p: Params, s: State, s': State, c: string, sig: Signal, quantity: real, d: Decision, mid: real,
                         now: Time) {
    && Gains(s, s', c, sig.symbol, Entry) && Opens(s'.net.book.orders[c].request, sig, quantity, d.plan.limit)
    && PlacedAs(p, s, s', c, d.plan.tif, now)
    && FixedAs(s'.net.book.orders[c], mid, p.sizing.riskPerTrade, Some(d.plan.ttl), 0.0, now)
    && s'.office == s.office.(signals := s.office.signals[c := sig], tracks := s'.office.tracks)
    && Entering(s'.office.tracks, sig.symbol)
  }

  /** The order book, the venue and all that is pending are as before; the symbol cools down. */
  ghost predicate Declined(s: State, s': State, x: string) {
    s'.net == s.net && s'.office == s.office.(tracks := s'.office.tracks) && !Entering(s'.office.tracks, x)
  }

  lemma RefusedDeclined(p: Params, s: State, x: string, now: Time)
    ensures Declined(s, Refused(p, s, x, now), x)
  {
  }

  lemma SentEntry(p: Params, s: State, sig: Signal, quantity: real, d: Decision, mid: real, now: Time)
    requires WellFormed(s.net.book) && IdsCovered(s.net.book, s.seqs) && Carried(s.net.working, s.net.book)
    requires NoneOpen(s.net.book, sig.symbol, Entry) && 0.0 < quantity && Entering(s.office.tracks, sig.symbol)
    ensures var (s', raised) := EntryIssued(p, s, sig, quantity, d, mid, now);
            && !raised
            && (Room(p.cap, s.net.book, Commits(quantity, mid)) ==>
                  exists c :: Enters(p, s, s', c, sig, quantity, d, mid, now))
            && (!Room(p.cap, s.net.book, Commits(quantity, mid)) ==> Declined(s, s', sig.symbol))
  {
    hide WellFormed, Carried, IdsCovered, Created, Sent, I.NextId, EntryKey, NoneOpen, Room, Gains, FixedAs, Entering,
         Commits, J.Coids, Declined, Refused;
    var key := EntryKey(sig, d);
    var coid, t := I.NextId(s.seqs, key), Issue(s, key);
    IssueCovered(s, key);
    var req, ttl, risk := EntryRequest(sig, quantity, d.plan, coid), Some(d.plan.ttl), p.sizing.riskPerTrade;
    CreatedUnless(s.net.book, p.cap, req, mid, risk, ttl, 0.0, now);
    var s' := EntryIssued(p, s, sig, quantity, d, mid, now).0;
    if Room(p.cap, s.net.book, Commits(quantity, mid)) {
      SentGains(p, t, req, d.plan.tif, mid, risk, ttl, 0.0, now, t.office.(signals := t.office.signals[coid := sig]));
      GainsIssued(s, t, s', coid, sig.symbol, Entry);
      assert Enters(p, s, s', coid, sig, quantity, d, mid, now);
    } else {
      RefusedDeclined(p, t, sig.symbol, now);
      DeclinedIssued(s, t, s', sig.symbol);
    }
  }

  lemma DeclinedIssued(s: State, t: State, s': State, x: string)
    requires Declined(t, s', x) && t.net == s.net && t.office == s.office
    ensures Declined(s, s', x)
  {
  }

  lemma EntryOutcome(p: Params, s: State, sig: Signal, d: Decision, mid: real, now: Time)
    requires RestBut(p, s, sig.symbol) && Entering(s.office.tracks, sig.symbol) && 0.0 < sig.reference
    ensures WellFormed(s.net.book) && Z.Sizable(sig)
    ensures var (s', raised) := Entered(p, s, sig, d, mid, now);
            var quantity := Z.Quantity(p.sizing, sig, d.regime, d.volatility, D.Loss(s.office.governor));
            var accepted := d.approved && NoneOpen(s.net.book, sig.symbol, Entry) && 0.0 < quantity
                            && Room(p.cap, s.net.book, Commits(quantity, mid));
            && !raised
            && (accepted ==> exists c :: Enters(p, s, s', c, sig, quantity, d, mid, now))
            && (!accepted ==> Declined(s, s', sig.symbol))
  {
    hide WellFormed, Carried, IdsCovered, NoneOpen, Room, Commits, EntryIssued, Z.Quantity, HasActiveEntry, Refused,
         Enters, Declined, Entering, PendingSound, TracksPriced, DeskSound, Alone, HasEntry;
    ActiveOpen(s.net.book, sig.symbol);
    RefusedDeclined(p, s, sig.symbol, now);
    var quantity := Z.Quantity(p.sizing, sig, d.regime, d.volatility, D.Loss(s.office.governor));
    if NoneOpen(s.net.book, sig.symbol, Entry) && 0.0 < quantity { SentEntry(p, s, sig, quantity, d, mid, now); }
  }

  lemma SteppedEntering(p: Params, s: State, d: Decision, sig: Signal)
    requires Rest(p, s) && Sane(p) && TargetInReach(p.fsm, d.feature) && Stepped(p, s, d).1 == Some(sig)
    ensures var s1 := Stepped(p, s, d).0;
            && RestBut(p, s1, sig.symbol) && Entering(s1.office.tracks, sig.symbol) && 0.0 < sig.reference
            && s1.net == s.net && s1.office == s.office.(tracks := s1.office.tracks)
  {
    hide F.StepTrack, RestBut, WellFormed, Carried, Sound, Alone, IdsCovered, TargetInReach;
    SteppedRest(p, s, d);
    InReach(p.fsm, d.feature);
    RestPriced(p, s);
    SteppedWaits(p, s, d, sig);
  }

  lemma RestPriced(p: Params, s: State)
    requires Rest(p, s)
    ensures TracksPriced(s.office.tracks)
  {
    hide WellFormed, Carried, Alone, IdsCovered, PendingSound, DeskSound, EntriesHeld, TracksPriced;
  }

  lemma SteppedWaits(p: Params, s: State, d: Decision, sig: Signal)
    requires TracksPriced(s.office.tracks) && Sane(p) && TargetInReach(p.fsm, d.feature)
    requires Stepped(p, s, d).1 == Some(sig)
    ensures sig.symbol == d.feature.symbol && Entering(Stepped(p, s, d).0.office.tracks, sig.symbol)
  {
    hide F.StepTrack, TargetInReach;
    StepEnters(p.fsm, F.TrackOf(s.office.tracks, d.feature.symbol), d.feature, d.action, d.trace);
  }

  /** No exit is wanted, no data check blocks, and the state machine gives this signal. */
  predicate Signalled(p: Params, s: State, q: Quote, d: Decision, sig: Signal) {
    && (d.exit.None? || q.symbol !in s.office.desk.positions) && !d.emergency && !d.blocked
    && F.StepTrack(p.fsm, F.TrackOf(s.office.tracks, d.feature.symbol), d.feature, d.action, d.trace).1 == Some(sig)
  }

  /**
   In every session, whatever the spacing of its ticks: a signal becomes an order exactly when the gates approve,
   no entry of its symbol is open, the size after all scaling is at least a share, and the cap has room for it at
   the mid price.  Then its order is open at the manager and at the venue; else no order is added and the symbol
   leaves ENTRY.
   */
  lemma EntryAccepted(p: Params, t0: Time, seqs: map<string, nat>, events: seq<Event>, s: State, q: Quote, d: Decision,
                      now: Time, sig: Signal)
    requires Reached(p, t0, seqs, events, s) && Sensible(p, d) && Signalled(p, s, q, d, sig)
    ensures WellFormed(s.net.book) && Z.Sizable(sig)
    ensures var (s', raised) := Evaluated(p, s, q, d, now);
            var mid, loss := (q.bid + q.ask) / 2.0, s.office.governor.peak - s.office.governor.realized;
            var quantity := Z.Quantity(p.sizing, sig, d.regime, d.volatility, loss);
            var accepted := d.approved && NoneOpen(s.net.book, sig.symbol, Entry) && 0.0 < quantity
                            && Room(p.cap, s.net.book, Commits(quantity, mid));
            && !raised
            && (accepted ==> exists c :: Enters(p, s, s', c, sig, quantity, d, mid, now))
            && (!accepted ==> Declined(s, s', sig.symbol))
  {
    hide Session, Rest, Sane, Sensible, Exited, Entered, WellFormed, Enters, NoneOpen, Room, Commits, RestBut, Entering,
         Z.Quantity, F.StepTrack, Declined;
    ReachedRest(p, t0, seqs, events, s);
    SensibleReach(p, d);
    ReachedSane(p, t0, seqs, events, s);
    RestBook(p, s);
    SteppedEntering(p, s, d, sig);
    var s1, mid := Stepped(p, s, d).0, Mid(q);
    EntryOutcome(p, s1, sig, d, mid, now);
    var s' := Evaluated(p, s, q, d, now).0;
    var quantity := Z.Quantity(p.sizing, sig, d.regime, d.volatility, D.Loss(s.office.governor));
    if c :| Enters(p, s1, s', c, sig, quantity, d, mid, now) {
      EntersBefore(p, s, s1, s', c, sig, quantity, d, mid, now);
    }
    if Declined(s1, s', sig.symbol) { DeclinedBefore(s, s1, s', sig.symbol); }
  }

  lemma SensibleReach(p: Params, d: Decision)
    requires Sensible(p, d)
    ensures TargetInReach(p.fsm, d.feature)
  {
  }

  lemma ReachedSane(p: Params, t0: Time, seqs: map<string, nat>, events: seq<Event>, s: State)
    requires Reached(p, t0, seqs, events, s)
    ensures Sane(p)
  {
  }

  lemma EntersBefore(p: Params, s: State, s1: State, s': State, c: string, sig: Signal, quantity: real, d: Decision,
                     mid: real, now: Time)
    requires Enters(p, s1, s', c, sig, quantity, d, mid, now)
    requires s1.net == s.net && s1.office == s.office.(tracks := s1.office.tracks)
    ensures Enters(p, s, s', c, sig, quantity, d, mid, now)
  {
    GainsIssued(s, s1, s', c, sig.symbol, Entry);
    hide Gains;
  }

  lemma DeclinedBefore(s: State, s1: State, s': State, x: string)
    requires Declined(s1, s', x) && s1.net == s.net && s1.office == s.office.(tracks := s1.office.tracks)
    ensures Declined(s, s', x)
  {
  }

  // ----- everything else

  /**
   Without an exit to send, an emergency or a failed data check ends the evaluation before the state machine sees
   it; and without a signal, the state machine is all that moves.
   */
  lemma QuietEvaluation(p: Params, s: State, q: Quote, d: Decision, now: Time)
    requires WellFormed(s.net.book) && !ExitDue(s, q, d)
    requires d.emergency || d.blocked || Stepped(p, s, d).1.None?
    ensures var (s', raised) := Evaluated(p, s, q, d, now);
            var x := d.feature.symbol;
            var t := F.StepTrack(p.fsm, F.TrackOf(s.office.tracks, x), d.feature, d.action, d.trace).0;
            && !raised && s'.net == s.net && s'.seqs == s.seqs
            && s'.office == if d.emergency || d.blocked then s.office
                            else s.office.(tracks := s.office.tracks[x := t])
  {
    hide F.StepTrack, WellFormed, Entered;
  }

  /** A refused report keeps a quote from being evaluated; otherwise the evaluation is what comes after it. */
  lemma EvaluatedUnlessRefused(p: Params, s: State, q: Quote, d: Decision, now: Time)
    requires WellFormed(s.net.book)
    ensures var (s1, refused) := Next(p, s, QuoteComes(q, None, now));
            WellFormed(s1.net.book)
            && Next(p, s, QuoteComes(q, Some(d), now)) == if refused then (s1, true) else Evaluated(p, s1, q, d, now)
  {
    hide WellFormed, Fed, Evaluated;
    FedWellFormed(p, s, V.QuoteIn(q), now);
  }

  /**
   An order that ends makes its symbol back off for half the cooldown exactly when it was an entry, nothing of it
   was filled, and the symbol was still waiting for it; in no other case does any track change.
   */
  lemma EndingBacksOff(p: Params, off: Office, o: ManagedOrder, now: Time)
    requires o.state in {Filled, Cancelled, Expired, Rejected} && (o.state == Filled ==> DUST < o.filledQty)
    ensures var x, off' := o.request.symbol, Ended(p, off, o, now);
            && (o.request.intent.Entry? && o.filledQty <= DUST && Entering(off.tracks, x) ==>
                  x in off'.tracks && off'.tracks[x].state.Cooldown?
                  && off'.tracks[x].cooldownUntil == Some(now + p.fsm.cooldown / 2.0))
            && (!(o.request.intent.Entry? && o.filledQty <= DUST && Entering(off.tracks, x)) ==>
                  forall y :: F.TrackOf(off'.tracks, y) == F.TrackOf(off.tracks, y))
            && (forall y :: y != x ==> F.TrackOf(off'.tracks, y) == F.TrackOf(off.tracks, y))
            && off'.signals == off.signals - {o.request.coid} && off'.reasons == off.reasons - {o.request.coid}
  {
  }

  // ----- quotes

  /** The last quote of a symbol that came. */
  function LastOf(events: seq<Event>, x: string): Option<Quote> {
    if events == [] then None else
    var e := events[|events| - 1];
    if e.QuoteComes? && e.quote.symbol == x then Some(e.quote) else LastOf(events[..|events| - 1], x)
  }

  lemma NextRemembers(p: Params, s: State, e: Event, x: string)
    requires WellFormed(s.net.book)
    ensures S.LastQuote(Next(p, s, e).0.net, x)
            == if e.QuoteComes? && e.quote.symbol == x then Some(e.quote) else S.LastQuote(s.net, x)
  {
    hide WellFormed, V.Visit, HandleAll, Sweep, AllEnded, A.CancelAll, Evaluated;
    match e
    case QuoteComes(q, decision, now) =>
      FedWellFormed(p, s, V.QuoteIn(q), now);
      if decision.Some? { EvaluatedQuotes(p, Fed(p, s, V.QuoteIn(q), now).0, q, decision.value, now); }
    case TradeComes(t, accepted, now) =>
    case TimerFires(now) =>
  }

  lemma EvaluatedQuotes(p: Params, s: State, q: Quote, d: Decision, now: Time)
    requires WellFormed(s.net.book)
    ensures Evaluated(p, s, q, d, now).0.net.quotes == s.net.quotes
  {
    hide WellFormed, Created, Do, V.Submitted, V.Without, I.NextId, EntryKey, I.Key, J.Coids, Z.Quantity,
         HasActiveEntry, HasActiveExit, F.EntryFailed, F.StepTrack, EntryRequest, ExitRequest;
  }

  lemma {:induction false} RunRemembers(p: Params, s: State, events: seq<Event>, s': State, x: string)
    requires Session(p, s, events, s')
    ensures S.LastQuote(s'.net, x) == if LastOf(events, x).Some? then LastOf(events, x) else S.LastQuote(s.net, x)
    decreases |events|
  {
    hide WellFormed, Next, Decided;
    if events != [] {
      NextRemembers(p, s, events[0], x);
      RunRemembers(p, Next(p, s, events[0]).0, events[1..], s', x);
      LastOfCons(events, x);
    }
  }

  lemma {:induction false} LastOfCons(events: seq<Event>, x: string)
    requires events != []
    ensures LastOf(events, x)
            == if LastOf(events[1..], x).Some? then LastOf(events[1..], x)
               else if events[0].QuoteComes? && events[0].quote.symbol == x then Some(events[0].quote) else None
    decreases |events|
  {
    if |events| > 1 {
      var front := events[..|events| - 1];
      assert front[1..] == events[1..][..|events| - 2];
      LastOfCons(front, x);
    }
  }

  /** What the venue places an order against is the last quote of its symbol in the whole session. */
  lemma QuotesRemembered(p: Params, t0: Time, seqs: map<string, nat>, events: seq<Event>, s: State, x: string)
    requires Reached(p, t0, seqs, events, s)
    ensures S.LastQuote(s.net, x) == LastOf(events, x)
  {
    hide Session, LastOf;
    RunRemembers(p, Start(t0, seqs), events, s, x);
  }
}
