/** What holds of the order manager after any sequence of calls, whatever the order of the callbacks. */
module OrderRuns {
  import opened Wrappers
  import opened RealMath
  import opened Models
  import opened Orders
  import opened Journal
  import opened OrderManagement

  datatype Event =
    | Opened(req: OrderRequest, reference: real, risk: real, ttl: Option<Time>, activation: Time, now: Time)
    | Happened(coid: string, op: Op, now: Time)
    | Swept(now: Time)
    | Crashed(after: Book)

  /** The book, with each order's executions and initial reservation kept on the side. */
  datatype History = History(book: Book, fills: map<string, Executions>, initial: map<string, real>)

  function Advance(h: History, cap: Option<real>, e: Event): History
    requires WellFormed(h.book) && h.fills.Keys == h.book.orders.Keys
  {
    match e
    case Opened(req, reference, risk, ttl, activation, now) =>
      var r := Created(h.book, cap, req, reference, risk, ttl, activation, now);
      if r.raised then h else
      History(r.book, h.fills[req.coid := []], h.initial[req.coid := Abs(req.quantity) * reference])
    case Happened(coid, op, now) =>
      h.(book := Do(h.book, coid, op, now).book,
         fills := if coid in h.fills then h.fills[coid := Recorded(h.fills[coid], op)] else h.fills)
    case Swept(now) => h.(book := Sweep(h.book, h.book.ids, now).0)
    case Crashed(after) => History(after, map c | c in after.orders :: [], map[])
  }

  /** Orders have a size and a price, and fills are not below the arithmetic floor. */
  predicate Sensible(e: Event) {
    match e
    case Opened(req, reference, _, _, _, _) => 0.0 < req.quantity && 0.0 <= reference
    case Happened(_, op, _) => op.Execution? ==> TINY <= op.quantity
    case Swept(_) => true
    case Crashed(_) => false
  }

  // ----- the invariant

  ghost predicate OrderSound(o: ManagedOrder, fills: Executions, initial: real) {
    && 0.0 < o.request.quantity && 0.0 <= initial
    && PathSound(o, fills) && ReservationSound(o, initial) && FillsSound(o, fills)
  }

  ghost predicate OrdersSound(h: History) {
    && h.fills.Keys == h.initial.Keys == h.book.orders.Keys
    && forall c :: c in h.book.orders ==> OrderSound(h.book.orders[c], h.fills[c], h.initial[c])
  }

  /** At most one live entry per symbol. */
  ghost predicate SingleEntry(orders: map<string, ManagedOrder>) {
    forall c, d, symbol | c in orders && d in orders ::
      IsActiveEntry(orders[c], symbol) && IsActiveEntry(orders[d], symbol) ==> c == d
  }

  ghost predicate WithinCap(b: Book, cap: Option<real>)
    requires WellFormed(b)
  {
    cap.Some? && 0.0 <= cap.value ==> ReservedNotional(b.ids, b.orders) <= cap.value
  }

  /** `on_terminal` was called once for every terminal order, and never for any other. */
  ghost predicate ReportedOnce(b: Book) {
    forall c :: multiset(b.finished)[c] == if c in b.orders && Terminal(b.orders[c].state) then 1 else 0
  }

  ghost predicate Sound(h: History, cap: Option<real>) {
    WellFormed(h.book) && OrdersSound(h) && SingleEntry(h.book.orders) && WithinCap(h.book, cap) && ReportedOnce(h.book)
  }

  // ----- one operation on one order

  lemma ApplySound(o: ManagedOrder, op: Op, now: Time, fills: Executions, initial: real)
    requires OrderSound(o, fills, initial) && (op.Execution? ==> TINY <= op.quantity)
    ensures OrderSound(Apply(o, op, now).order, Recorded(fills, op), initial)
    ensures Reserved(Apply(o, op, now).order) <= Reserved(o)
    ensures Terminal(o.state) ==> Terminal(Apply(o, op, now).order.state)
    ensures Apply(o, op, now).order.request == o.request
  {
    ApplyKeepsPath(o, op, now, fills);
    ApplyKeepsReservation(o, op, now, initial);
    ApplyKeepsFills(o, op, now, fills);
    ApplyFrame(o, op, now);
    if Terminal(o.state) {
      TerminalAbsorbs(o, op, now);
    }
    hide Apply, PathSound, FillsSound, Recorded, Remaining;
  }

  lemma TransitionEnds(o: ManagedOrder, op: Op, now: Time)
    ensures var s := Apply(o, op, now);
            && (!s.transitioned ==> s.order.state == o.state)
            && (s.transitioned ==> !Terminal(o.state))
  {
    if op.Execution? { AccumulateFrame(o, op.quantity, op.price); }
    hide Accumulate;
  }

  lemma {:induction false} ReservedUpdate(ids: seq<string>, orders: map<string, ManagedOrder>, c: string,
                                          o: ManagedOrder)
    requires forall d :: d in ids ==> d in orders
    requires forall i, j :: 0 <= i < j < |ids| ==> ids[i] != ids[j]
    requires c in orders
    ensures ReservedNotional(ids, orders[c := o])
            == ReservedNotional(ids, orders) + (if c in ids then Reserved(o) - Reserved(orders[c]) else 0.0)
  {
    if ids != [] {
      var front, last := ids[..|ids| - 1], ids[|ids| - 1];
      assert ids == front + [last];
      ReservedUpdate(front, orders, c, o);
    }
  }

  lemma {:induction false} ReservedIgnores(ids: seq<string>, orders: map<string, ManagedOrder>, c: string,
                                           o: ManagedOrder)
    requires c !in ids && forall d :: d in ids ==> d in orders
    ensures ReservedNotional(ids, orders[c := o]) == ReservedNotional(ids, orders)
  {
    if ids != [] {
      ReservedIgnores(ids[..|ids| - 1], orders, c, o);
    }
  }

  lemma PutKeepsSingleEntry(b: Book, coid: string, s: Step)
    requires SingleEntry(b.orders) && coid in b.orders
    requires s.order.request == b.orders[coid].request
    requires Terminal(b.orders[coid].state) ==> Terminal(s.order.state)
    ensures SingleEntry(Put(b, coid, s).orders)
  {
    var orders' := Put(b, coid, s).orders;
    forall c, symbol | c in orders' && IsActiveEntry(orders'[c], symbol) ensures IsActiveEntry(b.orders[c], symbol) {}
  }

  lemma PutReportsOnce(b: Book, coid: string, s: Step)
    requires ReportedOnce(b) && coid in b.orders
    requires !s.transitioned ==> s.order.state == b.orders[coid].state
    requires s.transitioned ==> !Terminal(b.orders[coid].state)
    ensures ReportedOnce(Put(b, coid, s))
  {
    var b' := Put(b, coid, s);
    assert multiset(b.finished + [coid]) == multiset(b.finished) + multiset{coid};
  }

  lemma PutWithinCap(b: Book, cap: Option<real>, coid: string, s: Step)
    requires WellFormed(b) && WithinCap(b, cap) && coid in b.orders
    requires s.order.request == b.orders[coid].request && Reserved(s.order) <= Reserved(b.orders[coid])
    ensures WellFormed(Put(b, coid, s)) && WithinCap(Put(b, coid, s), cap)
  {
    PutKeepsWellFormed(b, coid, s);
    ReservedUpdate(b.ids, b.orders, coid, s.order);
  }

  // ----- every event

  lemma HappenedKeepsOrders(h: History, coid: string, s: Step, fills: Executions)
    requires OrdersSound(h) && coid in h.book.orders && OrderSound(s.order, fills, h.initial[coid])
    ensures OrdersSound(History(Put(h.book, coid, s), h.fills[coid := fills], h.initial))
  {
    hide OrderSound;
  }

  lemma OrdersSoundAt(h: History, coid: string)
    requires OrdersSound(h)
    ensures h.fills.Keys == h.initial.Keys == h.book.orders.Keys
    ensures coid in h.book.orders ==> OrderSound(h.book.orders[coid], h.fills[coid], h.initial[coid])
  {
  }

  lemma HappenedKeepsSound(h: History, cap: Option<real>, coid: string, op: Op, now: Time)
    requires Sound(h, cap) && (op.Execution? ==> TINY <= op.quantity)
    ensures Sound(Advance(h, cap, Happened(coid, op, now)), cap)
  {
    hide OrderSound, OrdersSound, SingleEntry, ReportedOnce, WithinCap, WellFormed, Apply, Put, Reserved, Recorded;
    OrdersSoundAt(h, coid);
    if coid in h.book.orders {
      var o, fills, initial := h.book.orders[coid], h.fills[coid], h.initial[coid];
      var s := Apply(o, op, now);
      ApplySound(o, op, now, fills, initial);
      TransitionEnds(o, op, now);
      PutKeepsSingleEntry(h.book, coid, s);
      PutReportsOnce(h.book, coid, s);
      PutWithinCap(h.book, cap, coid, s);
      HappenedKeepsOrders(h, coid, s, Recorded(fills, op));
    }
  }

  /** The book after an order was accepted. */
  function Added(b: Book, o: ManagedOrder): Book {
    Book(b.ids + [o.request.coid], b.orders[o.request.coid := o], b.rows + [RowOf(o)], b.finished)
  }

  lemma AddedKeepsEntries(b: Book, o: ManagedOrder)
    requires WellFormed(b) && SingleEntry(b.orders) && ReportedOnce(b)
    requires o.request.coid !in b.orders && o.state == New
    requires o.request.intent.Entry? ==> !HasActiveEntry(b.orders, o.request.symbol)
    ensures WellFormed(Added(b, o)) && SingleEntry(Added(b, o).orders) && ReportedOnce(Added(b, o))
  {
  }

  lemma AddedWithinCap(b: Book, cap: Option<real>, o: ManagedOrder)
    requires WellFormed(b) && WellFormed(Added(b, o)) && o.request.coid !in b.orders && o.state == New
    requires !Exceeds(cap, ReservedNotional(b.ids, b.orders) + o.reservedNotional)
    ensures WithinCap(Added(b, o), cap)
  {
    hide WellFormed, ReservedNotional;
    IdsAreKeys(b, o.request.coid);
    ReservedSnoc(b.ids, b.orders, o);
  }

  lemma IdsAreKeys(b: Book, coid: string)
    requires WellFormed(b)
    ensures coid in b.ids <==> coid in b.orders
    ensures forall d :: d in b.ids ==> d in b.orders
  {
  }

  lemma ReservedSnoc(ids: seq<string>, orders: map<string, ManagedOrder>, o: ManagedOrder)
    requires o.request.coid !in ids && forall d :: d in ids ==> d in orders
    ensures ReservedNotional(ids + [o.request.coid], orders[o.request.coid := o])
            == ReservedNotional(ids, orders) + Reserved(o)
  {
    var ids' := ids + [o.request.coid];
    assert ids'[..|ids'| - 1] == ids;
    ReservedIgnores(ids, orders, o.request.coid, o);
  }

  /** What an order counts against the cap: its reservation while it is open. */
  function Counts(o: ManagedOrder): real { if Terminal(o.state) then 0.0 else o.reservedNotional }

  /** The total held against the cap follows every change of an order by the change of what that order counts. */
  lemma ReservedFollows(b: Book, coid: string, op: Op, now: Time)
    requires WellFormed(b)
    ensures WellFormed(Do(b, coid, op, now).book)
    ensures var b' := Do(b, coid, op, now).book;
            ReservedNotional(b'.ids, b'.orders) - ReservedNotional(b.ids, b.orders)
            == if coid in b.orders then Counts(b'.orders[coid]) - Counts(b.orders[coid]) else 0.0
  {
    hide Apply, ReservedNotional, WellFormed;
    IdsAreKeys(b, coid);
    DoKeepsWellFormed(b, coid, op, now);
    if coid in b.orders { ReservedPut(b, coid, Apply(b.orders[coid], op, now)); }
  }

  lemma ReservedPut(b: Book, coid: string, s: Step)
    requires WellFormed(b) && coid in b.orders && WellFormed(Put(b, coid, s))
    ensures var b' := Put(b, coid, s);
            ReservedNotional(b'.ids, b'.orders) - ReservedNotional(b.ids, b.orders)
            == Counts(s.order) - Counts(b.orders[coid])
  {
    ReservedUpdate(b.ids, b.orders, coid, s.order);
    hide ReservedNotional;
  }

  /** An order more: the book as `create` leaves it. */
  function Joined(b: Book, o: ManagedOrder): Book {
    Book(b.ids + [o.request.coid], b.orders[o.request.coid := o], b.rows + [RowOf(o)], b.finished)
  }

  lemma ReservedJoined(b: Book, o: ManagedOrder)
    requires WellFormed(b) && o.request.coid !in b.orders && !Terminal(o.state)
    ensures var b' := Joined(b, o);
            && WellFormed(b')
            && ReservedNotional(b'.ids, b'.orders) == ReservedNotional(b.ids, b.orders) + o.reservedNotional
  {
    IdsAreKeys(b, o.request.coid);
    ReservedSnoc(b.ids, b.orders, o);
    hide ReservedNotional;
  }

  lemma CreatedJoins(b: Book, cap: Option<real>, req: OrderRequest, reference: real, risk: real, ttl: Option<Time>,
                     activation: Time, now: Time)
    requires WellFormed(b) && !Created(b, cap, req, reference, risk, ttl, activation, now).raised
    ensures req.coid !in b.orders
    ensures Created(b, cap, req, reference, risk, ttl, activation, now).book
            == Joined(b, NewOrder(req, reference, risk, ttl, activation, now))
  {
    hide WellFormed, ReservedNotional, HasActiveEntry, NewOrder;
    NewRequest(req, reference, risk, ttl, activation, now);
  }

  lemma NewRequest(req: OrderRequest, reference: real, risk: real, ttl: Option<Time>, activation: Time, now: Time)
    ensures var o := NewOrder(req, reference, risk, ttl, activation, now);
            o.request == req && !Terminal(o.state) && o.reservedNotional == Abs(req.quantity) * reference
  {
  }

  /** It is zero without orders, and grows by quantity times reference with each order created. */
  lemma ReservedGrows(b: Book, cap: Option<real>, req: OrderRequest, reference: real, risk: real, ttl: Option<Time>,
                      activation: Time, now: Time)
    requires WellFormed(b) && !Created(b, cap, req, reference, risk, ttl, activation, now).raised
    ensures ReservedNotional([], b.orders) == 0.0
    ensures var b' := Created(b, cap, req, reference, risk, ttl, activation, now).book;
            && WellFormed(b')
            && ReservedNotional(b'.ids, b'.orders)
               == ReservedNotional(b.ids, b.orders) + Abs(req.quantity) * reference
  {
    assert ReservedNotional([], b.orders) == 0.0;
    hide ReservedNotional, HasActiveEntry, NewOrder, WellFormed, Joined, Created;
    CreatedJoins(b, cap, req, reference, risk, ttl, activation, now);
    NewRequest(req, reference, risk, ttl, activation, now);
    ReservedJoined(b, NewOrder(req, reference, risk, ttl, activation, now));
  }

  lemma NewOrderSound(e: Event)
    requires e.Opened? && Sensible(e)
    ensures var o := NewOrder(e.req, e.reference, e.risk, e.ttl, e.activation, e.now);
            OrderSound(o, [], Abs(e.req.quantity) * e.reference)
  {
    CreationReserves(e.req, e.reference, e.risk, e.ttl, e.activation, e.now);
    ProductOrder(0.0, e.reference, e.req.quantity);
    hide ReservationSound;
  }

  /** `create` either raises and changes nothing, or all three checks passed and the order was added. */
  lemma CreatedAdds(b: Book, cap: Option<real>, e: Event)
    requires WellFormed(b) && e.Opened?
    ensures var r := Created(b, cap, e.req, e.reference, e.risk, e.ttl, e.activation, e.now);
            var o := NewOrder(e.req, e.reference, e.risk, e.ttl, e.activation, e.now);
            && o.request == e.req && o.state == New && o.history == [] && o.filledQty == 0.0 && o.avgFillPrice == 0.0
            && o.reservedNotional == Abs(e.req.quantity) * e.reference
            && if r.raised then r.book == b else
               && r.book == Added(b, o) && e.req.coid !in b.orders
               && (e.req.intent.Entry? ==> !HasActiveEntry(b.orders, e.req.symbol))
               && !Exceeds(cap, ReservedNotional(b.ids, b.orders) + o.reservedNotional)
  {
    hide WellFormed, HasActiveEntry, ReservedNotional;
  }

  lemma OpenedKeepsSound(h: History, cap: Option<real>, e: Event)
    requires Sound(h, cap) && e.Opened? && Sensible(e)
    ensures Sound(Advance(h, cap, e), cap)
  {
    hide OrderSound, SingleEntry, ReportedOnce, WithinCap, WellFormed, HasActiveEntry, Exceeds, ReservedNotional,
         Created, NewOrder;
    CreatedAdds(h.book, cap, e);
    if !Created(h.book, cap, e.req, e.reference, e.risk, e.ttl, e.activation, e.now).raised {
      var o := NewOrder(e.req, e.reference, e.risk, e.ttl, e.activation, e.now);
      var notional := Abs(e.req.quantity) * e.reference;
      NewOrderSound(e);
      AddedKeepsEntries(h.book, o);
      AddedWithinCap(h.book, cap, o);
      assert Advance(h, cap, e).book == Added(h.book, o);
      assert Advance(h, cap, e).fills == h.fills[e.req.coid := []];
      assert Advance(h, cap, e).initial == h.initial[e.req.coid := notional];
    }
  }

  lemma {:induction false} SweepKeepsSound(h: History, cap: Option<real>, ids: seq<string>, now: Time)
    requires Sound(h, cap)
    ensures Sound(h.(book := Sweep(h.book, ids, now).0), cap)
    decreases |ids|
  {
    if ids != [] {
      SoundKeys(h, cap);
      hide Sound, Do;
      HappenedKeepsSound(h, cap, ids[0], Ttl, now);
      var h' := Advance(h, cap, Happened(ids[0], Ttl, now));
      TtlIsNoFill(h.fills, ids[0]);
      SweepKeepsSound(h', cap, ids[1..], now);
    }
  }

  lemma SoundKeys(h: History, cap: Option<real>)
    requires Sound(h, cap)
    ensures WellFormed(h.book) && h.fills.Keys == h.book.orders.Keys
  {
  }

  lemma TtlIsNoFill(fills: map<string, Executions>, coid: string)
    ensures (if coid in fills then fills[coid := Recorded(fills[coid], Ttl)] else fills) == fills
  {
  }

  lemma AdvanceKeepsSound(h: History, cap: Option<real>, e: Event)
    requires Sound(h, cap) && Sensible(e)
    ensures Sound(Advance(h, cap, e), cap)
  {
    match e
    case Opened(_, _, _, _, _, _) => OpenedKeepsSound(h, cap, e);
    case Happened(coid, op, now) => HappenedKeepsSound(h, cap, coid, op, now);
    case Swept(now) => SweepKeepsSound(h, cap, h.book.ids, now);
    case Crashed(_) => assert false;
  }

  ghost predicate Run(h: History, cap: Option<real>, events: seq<Event>, h': History)
    decreases |events|
  {
    if events == [] then h' == h else
    && Sensible(events[0])
    && WellFormed(h.book) && h.fills.Keys == h.book.orders.Keys
    && Run(Advance(h, cap, events[0]), cap, events[1..], h')
  }

  const Fresh := History(Book([], map[], [], []), map[], map[])

  lemma FreshSound(cap: Option<real>)
    ensures Sound(Fresh, cap)
  {
  }

  lemma {:induction false} RunKeepsSound(h: History, cap: Option<real>, events: seq<Event>, h': History)
    requires Sound(h, cap) && Run(h, cap, events, h')
    ensures Sound(h', cap)
    decreases |events|
  {
    if events != [] {
      AdvanceKeepsSound(h, cap, events[0]);
      RunKeepsSound(Advance(h, cap, events[0]), cap, events[1..], h');
    }
    hide Sound;
  }

  /**
   After any calls on a fresh manager: one live entry per symbol, reservations within the cap, and for every
   order a legal history of at most 4 + 2k states after k fills, a reservation of at most its initial
   notional times the unfilled share (none once terminal), an exact average price, and one terminal report.
   */
  lemma OrderManagerInvariant(cap: Option<real>, events: seq<Event>, h: History, c: string, d: string, symbol: string)
    requires Run(Fresh, cap, events, h) && c in h.book.orders && d in h.book.orders
    ensures WellFormed(h.book)
    ensures IsActiveEntry(h.book.orders[c], symbol) && IsActiveEntry(h.book.orders[d], symbol) ==> c == d
    ensures cap.Some? && 0.0 <= cap.value ==> ReservedNotional(h.book.ids, h.book.orders) <= cap.value
    ensures c in h.fills && c in h.initial
    ensures var o, fills := h.book.orders[c], h.fills[c];
            && LegalPath(o.history) && StateAfter(o.history) == o.state && |o.history| <= 4 + 2 * |fills|
            && 0.0 <= o.reservedNotional && o.reservedNotional * o.request.quantity <= h.initial[c] * Remaining(o)
            && (Terminal(o.state) ==> o.reservedNotional == 0.0 && o.reservedRisk == 0.0)
            && o.filledQty == Shares(fills) && o.avgFillPrice * o.filledQty == Notional(fills)
            && multiset(h.book.finished)[c] == (if Terminal(o.state) then 1 else 0)
  {
    FreshSound(cap);
    RunKeepsSound(Fresh, cap, events, h);
    assert OrderSound(h.book.orders[c], h.fills[c], h.initial[c]);
    PathLength(h.book.orders[c], h.fills[c]);
    hide LegalPath, StateAfter, Run;
  }

  // ----- replaying the journal

  /** What a restart builds from the journal (see `RebuildOpenOrders`), in any dictionary order. */
  ghost predicate Recovered(after: Book, rows: seq<JournalRow>) {
    && WellFormed(after) && after.rows == rows && after.finished == []
    && (forall c :: c in after.orders <==> Open(rows, c))
    && (forall c :: c in after.orders ==> Open(rows, c) && after.orders[c] == Revived(Latest(rows, c).value))
  }

  predicate Matches(row: JournalRow, o: ManagedOrder) {
    row.request == o.request && row.status == o.state && row.filled <= o.filledQty
  }

  ghost predicate Journaled(b: Book) {
    && (forall c :: c in b.orders ==> c != "" && Latest(b.rows, c).Some? && Matches(Latest(b.rows, c).value,
                                                                                    b.orders[c]))
    && (forall c :: Open(b.rows, c) ==> c in b.orders)
  }

  /** Fills may be of any nonnegative size here, crashes may happen anywhere, and ids are not empty. */
  ghost predicate JournalSensible(b: Book, e: Event) {
    match e
    case Opened(req, _, _, _, _, _) => req.coid != ""
    case Happened(_, op, _) => op.Execution? ==> 0.0 <= op.quantity
    case Swept(_) => true
    case Crashed(after) => Recovered(after, b.rows)
  }

  lemma PutJournaled(b: Book, coid: string, op: Op, now: Time)
    requires Journaled(b) && coid in b.orders && (op.Execution? ==> 0.0 <= op.quantity)
    ensures Journaled(Put(b, coid, Apply(b.orders[coid], op, now)))
  {
    var o := b.orders[coid];
    var s := Apply(o, op, now);
    ApplyFrame(o, op, now);
    TransitionEnds(o, op, now);
    hide Apply;
    var b' := Put(b, coid, s);
    if s.transitioned {
      forall c ensures Latest(b'.rows, c) == if o.request.coid == c then Some(RowOf(s.order)) else Latest(b.rows, c) {
        LatestSnoc(b.rows, RowOf(s.order), c);
      }
      assert Latest(b.rows, coid).value.request == o.request;
      hide Latest;
    }
  }

  lemma {:induction false} SweepJournaled(b: Book, ids: seq<string>, now: Time)
    requires WellFormed(b) && Journaled(b)
    ensures WellFormed(Sweep(b, ids, now).0) && Journaled(Sweep(b, ids, now).0)
    decreases |ids|
  {
    if ids != [] {
      if ids[0] in b.orders {
        PutJournaled(b, ids[0], Ttl, now);
      }
      DoKeepsWellFormed(b, ids[0], Ttl, now);
      hide Journaled, WellFormed, Apply;
      SweepJournaled(Do(b, ids[0], Ttl, now).book, ids[1..], now);
    }
  }

  lemma RecoveredJournaled(after: Book, rows: seq<JournalRow>)
    requires Recovered(after, rows)
    ensures Journaled(after) && WellFormed(after)
  {
  }

  lemma AddedJournaled(b: Book, o: ManagedOrder)
    requires WellFormed(b) && Journaled(b) && o.request.coid != "" && o.request.coid !in b.orders
    ensures WellFormed(Added(b, o)) && Journaled(Added(b, o))
  {
    forall c ensures Latest(b.rows + [RowOf(o)], c) == if o.request.coid == c then Some(RowOf(o)) else Latest(b.rows,
                                                                                                              c) {
      LatestSnoc(b.rows, RowOf(o), c);
    }
    hide Latest;
  }

  lemma CreatedJournaled(b: Book, cap: Option<real>, e: Event)
    requires WellFormed(b) && Journaled(b) && e.Opened? && e.req.coid != ""
    ensures var b' := Created(b, cap, e.req, e.reference, e.risk, e.ttl, e.activation, e.now).book;
            WellFormed(b') && Journaled(b')
  {
    hide WellFormed, Journaled, HasActiveEntry, ReservedNotional;
    if e.req.coid !in b.orders {
      AddedJournaled(b, NewOrder(e.req, e.reference, e.risk, e.ttl, e.activation, e.now));
    }
  }

  lemma AdvanceJournaled(h: History, cap: Option<real>, e: Event)
    requires WellFormed(h.book) && h.fills.Keys == h.book.orders.Keys && Journaled(h.book) && JournalSensible(h.book, e)
    ensures var h' := Advance(h, cap, e);
            WellFormed(h'.book) && h'.fills.Keys == h'.book.orders.Keys && Journaled(h'.book)
  {
    hide Journaled, Apply, WellFormed, Created, Recovered, HasActiveEntry, Sweep;
    match e
    case Opened(_, _, _, _, _, _) =>
      CreatedJournaled(h.book, cap, e);
      CreatedAdds(h.book, cap, e);
    case Happened(coid, op, now) =>
      if coid in h.book.orders {
        PutJournaled(h.book, coid, op, now);
      }
      DoKeepsWellFormed(h.book, coid, op, now);
    case Swept(now) =>
      SweepJournaled(h.book, h.book.ids, now);
      SweepKeepsKeys(h.book, h.book.ids, now);
    case Crashed(after) =>
      RecoveredJournaled(after, h.book.rows);
  }

  lemma {:induction false} SweepKeepsKeys(b: Book, ids: seq<string>, now: Time)
    ensures Sweep(b, ids, now).0.orders.Keys == b.orders.Keys && Sweep(b, ids, now).0.ids == b.ids
    decreases |ids|
  {
    if ids != [] {
      SweepKeepsKeys(Do(b, ids[0], Ttl, now).book, ids[1..], now);
    }
    hide Apply;
  }

  ghost predicate JournalRun(h: History, cap: Option<real>, events: seq<Event>, h': History)
    decreases |events|
  {
    if events == [] then h' == h else
    && JournalSensible(h.book, events[0])
    && WellFormed(h.book) && h.fills.Keys == h.book.orders.Keys
    && JournalRun(Advance(h, cap, events[0]), cap, events[1..], h')
  }

  lemma {:induction false} JournalRunKeeps(h: History, cap: Option<real>, events: seq<Event>, h': History)
    requires WellFormed(h.book) && h.fills.Keys == h.book.orders.Keys && Journaled(h.book)
    requires JournalRun(h, cap, events, h')
    ensures WellFormed(h'.book) && Journaled(h'.book)
    decreases |events|
  {
    hide WellFormed, Journaled;
    if events != [] {
      AdvanceJournaled(h, cap, events[0]);
      JournalRunKeeps(Advance(h, cap, events[0]), cap, events[1..], h');
    }
  }

  /**
   Replaying the journal at any moment of any run, crashes included, gives exactly the live active orders,
   with the same request and state, and never more filled quantity than the live order has.
   */
  lemma ReplayRebuildsActive(cap: Option<real>, events: seq<Event>, h: History, after: Book, c: string)
    requires JournalRun(Fresh, cap, events, h) && Recovered(after, h.book.rows)
    ensures c in after.orders <==> Active(h.book, c)
    ensures c in after.orders ==>
              && after.orders[c].request == h.book.orders[c].request
              && after.orders[c].state == h.book.orders[c].state
              && after.orders[c].filledQty <= h.book.orders[c].filledQty
  {
    assert Journaled(Fresh.book);
    JournalRunKeeps(Fresh, cap, events, h);
    hide Latest, JournalRun;
    if c in h.book.orders {
      assert Matches(Latest(h.book.rows, c).value, h.book.orders[c]);
    }
  }

  /** A fill between two partial states is not journaled: replay then misses it, and only then. */
  lemma ReplayLagsOnPartials(b: Book, coid: string, quantity: real, price: real, now: Time)
    requires coid in b.orders && b.orders[coid].request.coid == coid && 0.0 < quantity
    requires b.orders[coid].state in {Submitting, Acknowledged, Partial, CancelPending}
    requires Latest(b.rows, coid).Some? && Latest(b.rows, coid).value.filled == b.orders[coid].filledQty
    ensures var o := b.orders[coid];
            var b' := Do(b, coid, Execution(quantity, price), now).book;
            Latest(b'.rows, coid).value.filled == b'.orders[coid].filledQty
            <==> o.state != Partial || Left(o.request.quantity, o.filledQty + quantity) <= DUST
  {
    var o := b.orders[coid];
    AccumulateFrame(o, quantity, price);
    var s := Apply(o, Execution(quantity, price), now);
    hide Accumulate;
    LatestSnoc(b.rows, RowOf(s.order), coid);
    hide Latest;
  }

  // ----- the limits across restarts

  predicate Sized(e: Event) { e.Opened? ==> 0.0 < e.req.quantity && 0.0 <= e.reference }

  /** A reservation that only shrinks. */
  ghost predicate Shrinking(o: ManagedOrder) {
    && 0.0 < o.request.quantity && 0.0 <= o.filledQty
    && exists initial :: 0.0 <= initial && ReservationSound(o, initial)
  }

  ghost predicate AllShrinking(orders: map<string, ManagedOrder>) {
    forall c :: c in orders ==> Shrinking(orders[c])
  }

  /** Every recorded order had a size, and no fill was negative. */
  ghost predicate RowsSized(rows: seq<JournalRow>) {
    forall r :: r in rows ==> 0.0 < r.request.quantity && 0.0 <= r.filled
  }

  ghost predicate Limited(b: Book, cap: Option<real>) {
    && WellFormed(b) && Journaled(b) && SingleEntry(b.orders) && WithinCap(b, cap)
    && AllShrinking(b.orders) && RowsSized(b.rows)
  }

  lemma ApplyShrinks(o: ManagedOrder, op: Op, now: Time)
    requires Shrinking(o) && (op.Execution? ==> 0.0 <= op.quantity)
    ensures var o' := Apply(o, op, now).order;
            && Shrinking(o') && Reserved(o') <= Reserved(o) && o'.request == o.request
            && (Terminal(o.state) ==> Terminal(o'.state))
  {
    var initial :| 0.0 <= initial && ReservationSound(o, initial);
    ApplyKeepsReservation(o, op, now, initial);
    ApplyFrame(o, op, now);
    if Terminal(o.state) { TerminalAbsorbs(o, op, now); }
    var o' := Apply(o, op, now).order;
    hide Apply, Remaining;
    assert Reserved(o') <= Reserved(o) by { assert ReservationSound(o', initial) && ReservationSound(o, initial); }
    hide ReservationSound;
  }

  lemma DoLimited(b: Book, cap: Option<real>, coid: string, op: Op, now: Time)
    requires Limited(b, cap) && (op.Execution? ==> 0.0 <= op.quantity)
    ensures Limited(Do(b, coid, op, now).book, cap)
  {
    if coid in b.orders {
      var s := Apply(b.orders[coid], op, now);
      ApplyShrinks(b.orders[coid], op, now);
      PutJournaled(b, coid, op, now);
      PutKeepsSingleEntry(b, coid, s);
      PutWithinCap(b, cap, coid, s);
      hide Apply, Shrinking, WellFormed, Journaled, SingleEntry, WithinCap, Reserved;
      assert s.order.request == b.orders[coid].request && Shrinking(s.order);
      PutSized(b, coid, s);
    }
  }

  lemma PutSized(b: Book, coid: string, s: Step)
    requires coid in b.orders && AllShrinking(b.orders) && RowsSized(b.rows) && Shrinking(s.order)
    ensures AllShrinking(Put(b, coid, s).orders) && RowsSized(Put(b, coid, s).rows)
  {
    hide ReservationSound;
  }

  lemma {:induction false} SweepLimited(b: Book, cap: Option<real>, ids: seq<string>, now: Time)
    requires Limited(b, cap)
    ensures Limited(Sweep(b, ids, now).0, cap)
    decreases |ids|
  {
    hide Limited, Do;
    if ids != [] {
      DoLimited(b, cap, ids[0], Ttl, now);
      SweepLimited(Do(b, ids[0], Ttl, now).book, cap, ids[1..], now);
    }
  }

  lemma OpenedLimited(b: Book, cap: Option<real>, e: Event)
    requires Limited(b, cap) && e.Opened? && Sized(e) && e.req.coid != ""
    ensures Limited(Created(b, cap, e.req, e.reference, e.risk, e.ttl, e.activation, e.now).book, cap)
  {
    CreatedAdds(b, cap, e);
    var o := NewOrder(e.req, e.reference, e.risk, e.ttl, e.activation, e.now);
    hide Created, NewOrder, WellFormed, Journaled, SingleEntry, WithinCap, HasActiveEntry, ReservedNotional, Shrinking;
    if !Created(b, cap, e.req, e.reference, e.risk, e.ttl, e.activation, e.now).raised {
      CreatedJournaled(b, cap, e);
      AddedLimits(b, o);
      AddedWithinCap(b, cap, o);
      NewShrinks(e);
    }
  }

  lemma NewShrinks(e: Event)
    requires e.Opened? && Sized(e)
    ensures Shrinking(NewOrder(e.req, e.reference, e.risk, e.ttl, e.activation, e.now))
  {
    CreationReserves(e.req, e.reference, e.risk, e.ttl, e.activation, e.now);
    ProductOrder(0.0, e.reference, e.req.quantity);
    hide ReservationSound;
  }

  lemma AddedLimits(b: Book, o: ManagedOrder)
    requires WellFormed(b) && SingleEntry(b.orders) && o.request.coid !in b.orders && o.state == New
    requires o.request.intent.Entry? ==> !HasActiveEntry(b.orders, o.request.symbol)
    ensures WellFormed(Added(b, o)) && SingleEntry(Added(b, o).orders)
  {
  }

  lemma {:induction false} NothingReserved(ids: seq<string>, orders: map<string, ManagedOrder>)
    requires forall c :: c in ids ==> c in orders && orders[c].reservedNotional == 0.0
    ensures ReservedNotional(ids, orders) == 0.0
  {
    if ids != [] { NothingReserved(ids[..|ids| - 1], orders); }
  }

  /** A restart brings back orders that were live, without their reservations. */
  lemma CrashedLimited(b: Book, cap: Option<real>, after: Book)
    requires Limited(b, cap) && Recovered(after, b.rows)
    ensures Limited(after, cap) && ReservedNotional(after.ids, after.orders) == 0.0
  {
    RecoveredJournaled(after, b.rows);
    NothingReserved(after.ids, after.orders);
    forall c | c in after.orders
      ensures c in b.orders && after.orders[c].request == b.orders[c].request && !Terminal(b.orders[c].state)
      ensures Shrinking(after.orders[c])
    {
      assert Open(b.rows, c) && Matches(Latest(b.rows, c).value, b.orders[c]);
      LatestIn(b.rows, c);
      assert ReservationSound(after.orders[c], 0.0) && 0.0 <= after.orders[c].filledQty;
    }
    hide Journaled, ReservedNotional, Latest, Revived;
    forall c, d, symbol | c in after.orders && d in after.orders && IsActiveEntry(after.orders[c], symbol)
                          && IsActiveEntry(after.orders[d], symbol)
      ensures c == d
    {
      assert IsActiveEntry(b.orders[c], symbol) && IsActiveEntry(b.orders[d], symbol);
    }
  }

  lemma {:induction false} LatestIn(rows: seq<JournalRow>, coid: string)
    ensures Latest(rows, coid).Some? ==> Latest(rows, coid).value in rows
  {
    if rows != [] && rows[|rows| - 1].request.coid != coid {
      LatestIn(rows[..|rows| - 1], coid);
    }
  }

  lemma AdvanceLimited(h: History, cap: Option<real>, e: Event)
    requires Limited(h.book, cap) && h.fills.Keys == h.book.orders.Keys && JournalSensible(h.book, e) && Sized(e)
    ensures Limited(Advance(h, cap, e).book, cap)
  {
    match e
    case Opened(_, _, _, _, _, _) => OpenedLimited(h.book, cap, e);
    case Happened(coid, op, now) => DoLimited(h.book, cap, coid, op, now);
    case Swept(now) => SweepLimited(h.book, cap, h.book.ids, now);
    case Crashed(after) => CrashedLimited(h.book, cap, after);
    hide Limited, Do, Sweep, Created, Recovered;
  }

  lemma {:induction false} RunLimited(h: History, cap: Option<real>, events: seq<Event>, h': History)
    requires Limited(h.book, cap) && JournalRun(h, cap, events, h') && forall e :: e in events ==> Sized(e)
    ensures Limited(h'.book, cap)
    decreases |events|
  {
    hide Limited, Advance, WellFormed, JournalSensible;
    if events != [] {
      AdvanceLimited(h, cap, events[0]);
      RunLimited(Advance(h, cap, events[0]), cap, events[1..], h');
    }
  }

  /**
   The two limits hold across restarts too, at any number of them and at any moment: one open entry per symbol
   and reservations within the cap.  (A restart frees what the orders it restores had reserved.)
   */
  lemma LimitsSurviveRestarts(cap: Option<real>, events: seq<Event>, h: History, after: Book)
    requires JournalRun(Fresh, cap, events, h) && (forall e :: e in events ==> Sized(e))
    requires Recovered(after, h.book.rows)
    ensures WellFormed(h.book) && WellFormed(after)
    ensures cap.Some? && 0.0 <= cap.value ==> ReservedNotional(h.book.ids, h.book.orders) <= cap.value
    ensures ReservedNotional(after.ids, after.orders) == 0.0
    ensures SingleEntry(h.book.orders) && SingleEntry(after.orders)
  {
    assert Limited(Fresh.book, cap);
    RunLimited(Fresh, cap, events, h);
    CrashedLimited(h.book, cap, after);
    hide JournalRun, Journaled, Recovered, ReservedNotional, AllShrinking, SingleEntry;
  }
}
