/** Whole sessions: submissions, quotes, trades and ticks in any order, and what they never break. */
module SessionRuns {
  import opened Wrappers
  import opened RealMath
  import opened Models
  import opened Orders
  import opened OrderManagement
  import opened Protocol
  import opened Agreement
  import V = Venue
  import VR = VenueRuns

  /**
   The manager's book and the venue's, the time of the last tick, and everything the venue has reported.
   `ids` is the venue's insertion order.
   */
  datatype Net = Net(book: Book, ids: seq<string>, working: V.WorkingMap, quotes: map<string, Quote>, tick: Time,
                     tape: seq<V.VenueEvent>)

  function LastQuote(net: Net, symbol: string): Option<Quote> {
    if symbol in net.quotes then Some(net.quotes[symbol]) else None
  }

  /** `_submit_entry` and `_submit_exit` once the gates have passed: create, mark, hand to the venue. */
  function Submit(net: Net, cap: Option<real>, cfg: V.Config, req: OrderRequest, tif: V.Tif, reference: real,
                  risk: real,
                  ttl: Option<Time>, activation: Time, now: Time): (Net, bool)
    requires WellFormed(net.book)
  {
    var r := Created(net.book, cap, req, reference, risk, ttl, activation, now);
    if r.raised then (net, false) else
    var marked := Do(r.book, req.coid, MarkSubmitting, now);
    (net.(book := marked.book,
          ids := if req.coid in net.working then net.ids else V.Without(net.ids, req.coid) + [req.coid],
          working := net.working[req.coid := V.Submitted(cfg, req, tif, LastQuote(net, req.symbol), now)]),
     marked.raised)
  }

  /** Hands an input to the venue and everything it reports to the manager. */
  function Deliver(net: Net, cfg: V.Config, input: V.Input, now: Time): (Net, bool) {
    var (working, events) := V.Visit(cfg, net.ids, net.working, input, now);
    var r := ApplyAll(net.book, events, now);
    (net.(book := r.book, working := working, tape := net.tape + events,
          quotes := if input.QuoteIn? then net.quotes[input.quote.symbol := input.quote] else net.quotes),
     r.raised)
  }

  /** The timer sweep, and the cancels it sends to the venue. */
  function Swept(net: Net, cfg: V.Config, now: Time): Net {
    var (book, cancels) := Sweep(net.book, net.book.ids, now);
    net.(book := book, working := CancelAll(cfg, net.working, cancels, now))
  }

  /** `on_tick`: the timer sweep, its cancels, then the venue's acknowledgements. */
  function Tick(net: Net, cfg: V.Config, now: Time): (Net, bool) {
    var (net', raised) := Deliver(Swept(net, cfg, now), cfg, V.PollIn, now);
    (net'.(tick := now), raised)
  }

  datatype Event =
    | Submits(req: OrderRequest, tif: V.Tif, reference: real, risk: real, ttl: Option<Time>, activation: Time,
              now: Time)
    | Market(input: V.Input, now: Time)
    | Ticks(now: Time)

  /** `on_quote` and `on_trade` deliver the data and then tick. */
  function Next(net: Net, cap: Option<real>, cfg: V.Config, e: Event): (Net, bool)
    requires WellFormed(net.book)
  {
    match e
    case Submits(req, tif, reference, risk, ttl, activation, now) =>
      Submit(net, cap, cfg, req, tif, reference, risk, ttl, activation, now)
    case Market(input, now) =>
      var (net', raised) := Deliver(net, cfg, input, now);
      if raised then (net', true) else Tick(net', cfg, now)
    case Ticks(now) => Tick(net, cfg, now)
  }

  /**
   The clock does not run backwards, ticks are at most `gap` apart, and every deadline leaves room for the
   acknowledgement and one gap.
   */
  predicate Timely(net: Net, cfg: V.Config, gap: Time, e: Event) {
    match e
    case Submits(req, _, _, _, ttl, _, now) =>
      net.tick <= now && DUST < req.quantity && (ttl.Some? ==> gap < ttl.value && cfg.ackLatency + gap <= ttl.value)
    case Market(input, now) => net.tick <= now <= net.tick + gap && !input.PollIn?
    case Ticks(now) => net.tick <= now <= net.tick + gap
  }

  // ----- the invariant

  ghost predicate Accounted(net: Net) {
    && (forall c :: c in net.book.orders ==> net.book.orders[c].filledQty == Total(net.tape, c))
    && (forall c :: c !in net.book.orders ==> Total(net.tape, c) == 0.0)
  }

  ghost predicate Sound(net: Net, cfg: V.Config, gap: Time) {
    && Distinct(net.ids) && Distinct(net.book.ids) && (forall c :: c in net.working ==> c in net.ids)
    && AgreeAll(cfg, gap, net.tick, net.tick, net.book, net.working)
    && Accounted(net)
  }

  lemma {:induction false} SilentOthers(cfg: V.Config, ids: seq<string>, working: V.WorkingMap, input: V.Input,
                                        now: Time, c: string)
    requires c !in working && forall d :: d in working ==> working[d].req.coid == d
    ensures Total(V.Visit(cfg, ids, working, input, now).1, c) == 0.0
    ensures c !in V.Visit(cfg, ids, working, input, now).0
    decreases |ids|
  {
    hide V.React;
    if ids != [] {
      if ids[0] !in working {
        SilentOthers(cfg, ids[1..], working, input, now, c);
      } else {
        var w := working[ids[0]];
        var r := V.React(cfg, w, input, now);
        ReactAbout(cfg, w, input, now);
        var working1 := V.Keep(working, ids[0], r.order);
        SilentOthers(cfg, ids[1..], working1, input, now, c);
        TotalOfOthers(r.events, ids[0], c);
        TotalSplit(r.events, V.Visit(cfg, ids[1..], working1, input, now).1, c);
      }
    }
  }

  /** How one delivery moves the pair of views of one order. */
  ghost predicate Moved(cfg: V.Config, gap: Time, sent: Time, input: V.Input, now: Time, net: Net, net': Net) {
    && net'.tick == net.tick && net'.ids == net.ids && net'.book.ids == net.book.ids
    && net'.book.orders.Keys == net.book.orders.Keys
    && (forall c :: c in net'.working ==> c in net.working)
    && AgreeAll(cfg, gap, net.tick, sent, net'.book, net'.working)
    && (forall c :: c in net.book.orders ==>
          Followed(input, now, net.book.orders[c], Look(net.working, c), net'.book.orders[c], Look(net'.working, c)))
  }

  /** What a delivery needs to know of the state it starts from. */
  ghost predicate Ready(net: Net, cfg: V.Config, gap: Time, sent: Time) {
    && 0.0 <= cfg.minShares && Distinct(net.ids) && (forall c :: c in net.working ==> c in net.ids)
    && AgreeAll(cfg, gap, net.tick, sent, net.book, net.working)
  }

  lemma DeliverAccepted(net: Net, cfg: V.Config, gap: Time, sent: Time, input: V.Input, now: Time)
    requires Ready(net, cfg, gap, sent)
    ensures Acceptable(cfg, net.book, net.ids, net.working, input, now)
  {
    hide V.React, EventsOn, Agree, WellFormed, Followed;
    forall c | c in net.working && c in net.ids
      ensures !EventsOn(net.book.orders[c], V.React(cfg, net.working[c], input, now).events, now).1
    {
      assert Look(net.working, c) == Some(net.working[c]);
      ReactAgrees(cfg, gap, net.tick, sent, net.book.orders[c], net.working[c], input, now);
    }
  }

  lemma DeliverOrder(net: Net, cfg: V.Config, gap: Time, sent: Time, input: V.Input, now: Time, c: string,
                     o': ManagedOrder, w': Option<Working>, filled: real)
    requires Ready(net, cfg, gap, sent) && c in net.book.orders
    requires Visited(cfg, net.ids, input, now, c, net.book.orders[c], Look(net.working, c), o', w', filled)
    ensures Agree(cfg, gap, net.tick, sent, o', w')
    ensures Followed(input, now, net.book.orders[c], Look(net.working, c), o', w')
    ensures w'.Some? ==> c in net.working
  {
    hide V.React, EventsOn, Agree, WellFormed, Followed;
    if c in net.working {
      ReactAgrees(cfg, gap, net.tick, sent, net.book.orders[c], net.working[c], input, now);
    } else {
      StaysQuiet(input, now, net.book.orders[c]);
    }
  }

  lemma DeliverMoves(net: Net, cfg: V.Config, gap: Time, sent: Time, input: V.Input, now: Time)
    requires Ready(net, cfg, gap, sent)
    ensures var (net', raised) := Deliver(net, cfg, input, now);
            !raised && Moved(cfg, gap, sent, input, now, net, net')
  {
    DeliverAccepted(net, cfg, gap, sent, input, now);
    VisitPointwise(cfg, net.book, net.ids, net.working, input, now);
    var (working', events) := V.Visit(cfg, net.ids, net.working, input, now);
    var r := ApplyAll(net.book, events, now);
    hide V.React, EventsOn, Agree, WellFormed, Followed, Total, ApplyAll, V.Visit, Visited, Acceptable;
    forall c | c in net.book.orders
      ensures Agree(cfg, gap, net.tick, sent, r.book.orders[c], Look(working', c))
      ensures Followed(input, now, net.book.orders[c], Look(net.working, c), r.book.orders[c], Look(working', c))
      ensures c in working' ==> c in net.working
    {
      DeliverOrder(net, cfg, gap, sent, input, now, c, r.book.orders[c], Look(working', c), Total(events, c));
    }
  }

  lemma DeliverAccounted(net: Net, cfg: V.Config, gap: Time, sent: Time, input: V.Input, now: Time)
    requires Ready(net, cfg, gap, sent) && Accounted(net)
    ensures Accounted(Deliver(net, cfg, input, now).0)
  {
    DeliverAccepted(net, cfg, gap, sent, input, now);
    VisitPointwise(cfg, net.book, net.ids, net.working, input, now);
    var (working', events) := V.Visit(cfg, net.ids, net.working, input, now);
    var r := ApplyAll(net.book, events, now);
    hide V.React, EventsOn, Agree, WellFormed, Total, ApplyAll, V.Visit, Acceptable;
    forall c | c in net.book.orders ensures r.book.orders[c].filledQty == Total(net.tape + events, c) {
      assert Visited(cfg, net.ids, input, now, c, net.book.orders[c], Look(net.working, c), r.book.orders[c],
                     Look(working', c), Total(events, c));
      TotalSplit(net.tape, events, c);
    }
    forall c | c !in net.book.orders ensures Total(net.tape + events, c) == 0.0 {
      SilentOthers(cfg, net.ids, net.working, input, now, c);
      TotalSplit(net.tape, events, c);
    }
  }

  lemma StaysQuiet(input: V.Input, now: Time, o: ManagedOrder)
    ensures Followed(input, now, o, None, o, None)
  {
  }

  // ----- ticks

  /** The sweep and its cancels, order by order. */
  ghost predicate SweptPointwise(net: Net, cfg: V.Config, now: Time, mid: Net) {
    && WellFormed(mid.book) && mid.book.ids == net.book.ids && mid.book.orders.Keys == net.book.orders.Keys
    && mid.working.Keys == net.working.Keys && mid.tick == net.tick && mid.ids == net.ids && mid.tape == net.tape
    && (forall c :: c in net.book.orders ==>
          && mid.book.orders[c] == SweptOrder(net.book.orders[c], now)
          && Look(mid.working, c) == SweptWorking(cfg, net.book.orders[c], Look(net.working, c), now))
  }

  lemma SweepIsPointwise(net: Net, cfg: V.Config, now: Time)
    requires WellFormed(net.book) && forall c :: c in net.working ==> c in net.book.orders
    ensures SweptPointwise(net, cfg, now, Swept(net, cfg, now))
  {
    var (book, cancels) := Sweep(net.book, net.book.ids, now);
    BookIds(net.book);
    SweepPointwise(net.book, net.book.ids, now);
    CancelAllPointwise(cfg, net.working, cancels, now);
    var working := CancelAll(cfg, net.working, cancels, now);
    hide Sweep, CancelAll, SweptOrder, SweptToCancel, WellFormed, SweptWorking;
    forall c | c in net.book.orders
      ensures Look(working, c) == SweptWorking(cfg, net.book.orders[c], Look(net.working, c), now)
    {
      CancelIsSwept(cfg, net.book.orders[c], net.working, working, cancels, c, now);
    }
  }

  lemma CancelIsSwept(cfg: V.Config, o: ManagedOrder, working: V.WorkingMap, working': V.WorkingMap,
                      cancels: seq<string>, c: string, now: Time)
    requires working'.Keys == working.Keys && (c in cancels <==> SweptToCancel(o, now))
    requires c in working ==> working'[c] == if c in cancels && working[c].cancelAt.None?
                                             then working[c].(cancelAt := Some(now + cfg.cancelLatency)) else working[c]
    ensures Look(working', c) == SweptWorking(cfg, o, Look(working, c), now)
  {
    hide SweptToCancel;
  }

  lemma SweepOrderMoves(net: Net, cfg: V.Config, gap: Time, now: Time, mid: Net, c: string)
    requires AgreeAll(cfg, gap, net.tick, net.tick, net.book, net.working) && net.tick <= now <= net.tick + gap
    requires SweptPointwise(net, cfg, now, mid) && c in net.book.orders
    ensures Agree(cfg, gap, net.tick, now, mid.book.orders[c], Look(mid.working, c))
    ensures mid.book.orders[c].filledQty == net.book.orders[c].filledQty
    ensures c in mid.working ==> mid.working[c].req.coid == c
  {
    hide SweptOrder, Agree, WellFormed;
    SweepAgrees(cfg, gap, net.tick, net.book.orders[c], Look(net.working, c), now);
    SweptKeepsFills(net.book.orders[c], now);
  }

  lemma SweepMoves(net: Net, cfg: V.Config, gap: Time, now: Time)
    requires Sound(net, cfg, gap) && 0.0 <= cfg.minShares && net.tick <= now <= net.tick + gap
    ensures SweptPointwise(net, cfg, now, Swept(net, cfg, now))
    ensures Ready(Swept(net, cfg, now), cfg, gap, now) && Accounted(Swept(net, cfg, now))
  {
    hide Swept, Agree, SweptOrder, SweptWorking, WellFormed, Total;
    SweepIsPointwise(net, cfg, now);
    var mid := Swept(net, cfg, now);
    forall c | c in net.book.orders
      ensures Agree(cfg, gap, net.tick, now, mid.book.orders[c], Look(mid.working, c))
      ensures mid.book.orders[c].filledQty == net.book.orders[c].filledQty
      ensures c in mid.working ==> mid.working[c].req.coid == c
    {
      SweepOrderMoves(net, cfg, gap, now, mid, c);
    }
  }

  lemma SweptKeepsFills(o: ManagedOrder, now: Time)
    ensures SweptOrder(o, now).filledQty == o.filledQty && SweptOrder(o, now).expireAt == o.expireAt
  {
    ApplyFrame(o, Ttl, now);
  }

  lemma BookIds(b: Book)
    requires WellFormed(b)
    ensures Distinct(b.ids) && forall c :: c in b.ids <==> c in b.orders
  {
  }

  lemma TickSound(net: Net, cfg: V.Config, gap: Time, now: Time)
    requires Sound(net, cfg, gap) && 0.0 <= cfg.minShares && net.tick <= now <= net.tick + gap
    ensures var (net', raised) := Tick(net, cfg, now);
            !raised && Sound(net', cfg, gap) && net'.tick == now && net'.book.orders.Keys == net.book.orders.Keys
  {
    hide Deliver, Swept, Agree, Followed, WellFormed, Total;
    SweepMoves(net, cfg, gap, now);
    var mid := Swept(net, cfg, now);
    DeliverMoves(mid, cfg, gap, now, V.PollIn, now);
    DeliverAccounted(mid, cfg, gap, now, V.PollIn, now);
    var (net', raised) := Tick(net, cfg, now);
    forall c | c in net'.book.orders
      ensures Agree(cfg, gap, now, now, net'.book.orders[c], Look(net'.working, c))
    {
      var o, w, o', w' := mid.book.orders[c], Look(mid.working, c), net'.book.orders[c], Look(net'.working, c);
      assert Followed(V.PollIn, now, o, w, o', w') && Agree(cfg, gap, net.tick, now, o', w');
      PollSettled(now, o, w, o', w');
      PollSettles(cfg, gap, net.tick, now, o', w');
    }
  }

  lemma PollSettled(now: Time, o: ManagedOrder, w: Option<Working>, o': ManagedOrder, w': Option<Working>)
    requires Followed(V.PollIn, now, o, w, o', w')
    ensures w'.Some? ==> w'.value.acked || now < w'.value.ackAt
  {
  }

  // ----- every event

  lemma SubmittedAgrees(cfg: V.Config, gap: Time, tick: Time, o: ManagedOrder, req: OrderRequest, tif: V.Tif,
                        q: Option<Quote>,
                        ttl: Option<Time>, now: Time)
    requires o.request == req && o.state == Submitting && o.filledQty == 0.0 && DUST < req.quantity && tick <= now
    requires o.expireAt == (match ttl case None => None case Some(t) => Some(now + t))
    requires ttl.Some? ==> gap < ttl.value && cfg.ackLatency + gap <= ttl.value
    ensures Agree(cfg, gap, tick, tick, o, Some(V.Submitted(cfg, req, tif, q, now)))
    ensures V.Submitted(cfg, req, tif, q, now).req == req
  {
    hide V.JoinBehind;
  }

  lemma {:induction false} WithoutDistinct(ids: seq<string>, coid: string)
    requires Distinct(ids)
    ensures Distinct(V.Without(ids, coid) + [coid])
    decreases |ids|
  {
    if ids != [] {
      assert Distinct(ids[1..]);
      WithoutDistinct(ids[1..], coid);
      var t := V.Without(ids[1..], coid) + [coid];
      if ids[0] != coid {
        assert V.Without(ids, coid) + [coid] == [ids[0]] + t;
        assert ids[0] !in t;
      }
    }
  }

  /** A fresh order is marked as submitted without complaint. */
  lemma MarkFresh(b: Book, o: ManagedOrder, now: Time)
    requires WellFormed(b) && o.request.coid in b.orders && b.orders[o.request.coid] == o && o.state == New
    ensures var r := Do(b, o.request.coid, MarkSubmitting, now);
            && !r.raised && WellFormed(r.book) && r.book.ids == b.ids
            && r.book.orders.Keys == b.orders.Keys
            && (forall d :: d in b.orders && d != o.request.coid ==> r.book.orders[d] == b.orders[d])
            && var o' := r.book.orders[o.request.coid];
               && o'.state == Submitting && o'.request == o.request
               && o'.filledQty == o.filledQty && o'.expireAt == o.expireAt
  {
    DoChangesOnly(b, o.request.coid, MarkSubmitting, now);
    ApplyFrame(o, MarkSubmitting, now);
    hide Accumulate, WellFormed, Do;
  }

  lemma CreatedShape(b: Book, cap: Option<real>, req: OrderRequest, reference: real, risk: real, ttl: Option<Time>,
                     activation: Time, now: Time)
    requires WellFormed(b)
    ensures var r := Created(b, cap, req, reference, risk, ttl, activation, now);
            && WellFormed(r.book)
            && (r.raised ==> r.book == b)
            && (!r.raised ==>
                  && req.coid !in b.orders && r.book.ids == b.ids + [req.coid]
                  && r.book.orders.Keys == b.orders.Keys + {req.coid}
                  && (forall d :: d in b.orders ==> r.book.orders[d] == b.orders[d])
                  && var o := r.book.orders[req.coid];
                     o.request == req && o.state == New && o.filledQty == 0.0
                     && o.expireAt == (match ttl case None => None case Some(t) => Some(now + t)))
  {
    hide ReservedNotional, HasActiveEntry;
  }

  /** An accepted submission adds one order, unacknowledged and unfilled, to both sides. */
  ghost predicate Adds(net: Net, cfg: V.Config, e: Event, net': Net)
    requires e.Submits?
  {
    var coid := e.req.coid;
    && coid !in net.book.orders && WellFormed(net'.book) && net'.tick == net.tick && net'.tape == net.tape
    && net'.ids == (if coid in net.working then net.ids else V.Without(net.ids, coid) + [coid])
    && net'.working == net.working[coid := V.Submitted(cfg, e.req, e.tif, LastQuote(net, e.req.symbol), e.now)]
    && net'.book.orders.Keys == net.book.orders.Keys + {coid}
    && (forall d :: d in net.book.orders ==> net'.book.orders[d] == net.book.orders[d])
    && var o := net'.book.orders[coid];
       o.request == e.req && o.state == Submitting && o.filledQty == 0.0
       && o.expireAt == (match e.ttl case None => None case Some(t) => Some(e.now + t))
  }

  lemma SubmitAdds(net: Net, cap: Option<real>, cfg: V.Config, e: Event)
    requires WellFormed(net.book) && e.Submits?
    ensures var (net', raised) := Next(net, cap, cfg, e);
            !raised && (net' == net || Adds(net, cfg, e, net'))
  {
    hide Created, Do, WellFormed, V.Submitted, V.Without;
    CreatedShape(net.book, cap, e.req, e.reference, e.risk, e.ttl, e.activation, e.now);
    var r := Created(net.book, cap, e.req, e.reference, e.risk, e.ttl, e.activation, e.now);
    if !r.raised {
      MarkFresh(r.book, r.book.orders[e.req.coid], e.now);
    }
  }

  lemma SubmitSound(net: Net, cap: Option<real>, cfg: V.Config, gap: Time, e: Event)
    requires Sound(net, cfg, gap) && e.Submits? && Timely(net, cfg, gap, e) && WellFormed(net.book)
    ensures var (net', raised) := Next(net, cap, cfg, e);
            !raised && Sound(net', cfg, gap)
  {
    hide Next, Agree, WellFormed, V.Submitted, Total;
    SubmitAdds(net, cap, cfg, e);
    var (net', raised) := Next(net, cap, cfg, e);
    if net' != net {
      var coid, w := e.req.coid, V.Submitted(cfg, e.req, e.tif, LastQuote(net, e.req.symbol), e.now);
      SubmittedAgrees(cfg, gap, net.tick, net'.book.orders[coid], e.req, e.tif, LastQuote(net, e.req.symbol), e.ttl,
                      e.now);
      WithoutDistinct(net.ids, coid);
      BookIds(net'.book);
      hide Sound;
      SubmitAgreesAll(net, cfg, gap, coid, net', w);
      SubmitAccounted(net, coid, net');
      SubmitListed(net, cfg, gap, coid, net', w);
      AssembleSound(net', cfg, gap);
    }
  }

  lemma AssembleSound(net: Net, cfg: V.Config, gap: Time)
    requires Distinct(net.ids) && Distinct(net.book.ids) && forall c :: c in net.working ==> c in net.ids
    requires AgreeAll(cfg, gap, net.tick, net.tick, net.book, net.working) && Accounted(net)
    ensures Sound(net, cfg, gap)
  {
  }

  lemma SubmitListed(net: Net, cfg: V.Config, gap: Time, coid: string, net': Net, w: Working)
    requires Sound(net, cfg, gap) && net'.working == net.working[coid := w]
    requires net'.ids == (if coid in net.working then net.ids else V.Without(net.ids, coid) + [coid])
    ensures forall c :: c in net'.working ==> c in net'.ids
    ensures Distinct(net'.ids)
  {
    hide AgreeAll, Accounted;
    WithoutDistinct(net.ids, coid);
  }

  lemma SubmitAgreesAll(net: Net, cfg: V.Config, gap: Time, coid: string, net': Net, w: Working)
    requires Sound(net, cfg, gap) && coid !in net.book.orders && w.req.coid == coid
    requires WellFormed(net'.book) && net'.tick == net.tick && net'.working == net.working[coid := w]
    requires net'.book.orders.Keys == net.book.orders.Keys + {coid}
    requires forall d :: d in net.book.orders ==> net'.book.orders[d] == net.book.orders[d]
    requires Agree(cfg, gap, net.tick, net.tick, net'.book.orders[coid], Some(w))
    ensures AgreeAll(cfg, gap, net.tick, net.tick, net'.book, net'.working)
  {
    hide Agree, WellFormed, Accounted;
    assert forall c :: c in net.book.orders ==> Look(net'.working, c) == Look(net.working, c);
  }

  lemma SubmitAccounted(net: Net, coid: string, net': Net)
    requires Accounted(net) && coid !in net.book.orders && net'.tape == net.tape
    requires net'.book.orders.Keys == net.book.orders.Keys + {coid} && net'.book.orders[coid].filledQty == 0.0
    requires forall d :: d in net.book.orders ==> net'.book.orders[d] == net.book.orders[d]
    ensures Accounted(net')
  {
    hide Total;
  }

  lemma NextSound(net: Net, cap: Option<real>, cfg: V.Config, gap: Time, e: Event)
    requires Sound(net, cfg, gap) && 0.0 <= cfg.minShares && Timely(net, cfg, gap, e)
    requires WellFormed(net.book)
    ensures var (net', raised) := Next(net, cap, cfg, e);
            !raised && Sound(net', cfg, gap) && WellFormed(net'.book)
  {
    match e
    case Submits(_, _, _, _, _, _, _) => SubmitSound(net, cap, cfg, gap, e);
    case Market(input, now) =>
      MarketSound(net, cfg, gap, input, now);
      TickSound(Deliver(net, cfg, input, now).0, cfg, gap, now);
    case Ticks(now) => TickSound(net, cfg, gap, now);
    hide Deliver, Tick, Submit, Agree, WellFormed, Total;
  }

  lemma MarketSound(net: Net, cfg: V.Config, gap: Time, input: V.Input, now: Time)
    requires Sound(net, cfg, gap) && 0.0 <= cfg.minShares
    ensures var (net', raised) := Deliver(net, cfg, input, now);
            !raised && Sound(net', cfg, gap) && net'.tick == net.tick && net'.book.orders.Keys == net.book.orders.Keys
  {
    hide Deliver, Agree, WellFormed, Total, Followed;
    DeliverMoves(net, cfg, gap, net.tick, input, now);
    DeliverAccounted(net, cfg, gap, net.tick, input, now);
  }

  // ----- runs

  /** A fresh engine whose clock reads t0. */
  function Start(t0: Time): Net { Net(Book([], map[], [], []), [], map[], map[], t0, []) }

  /** A session: every event is timely. */
  ghost predicate Session(net: Net, cap: Option<real>, cfg: V.Config, gap: Time, events: seq<Event>, net': Net)
    decreases |events|
  {
    if events == [] then net' == net else
    && WellFormed(net.book) && Timely(net, cfg, gap, events[0])
    && Session(Next(net, cap, cfg, events[0]).0, cap, cfg, gap, events[1..], net')
  }

  lemma {:induction false} SessionSound(net: Net, cap: Option<real>, cfg: V.Config, gap: Time, events: seq<Event>,
                                        net': Net)
    requires Sound(net, cfg, gap) && 0.0 <= cfg.minShares && Session(net, cap, cfg, gap, events, net')
    ensures Sound(net', cfg, gap) && WellFormed(net'.book)
    decreases |events|
  {
    hide Sound, Next, WellFormed;
    if events == [] {
      SoundBook(net, cfg, gap);
    } else {
      NextSound(net, cap, cfg, gap, events[0]);
      SessionSound(Next(net, cap, cfg, events[0]).0, cap, cfg, gap, events[1..], net');
    }
  }

  lemma SoundBook(net: Net, cfg: V.Config, gap: Time)
    requires Sound(net, cfg, gap)
    ensures WellFormed(net.book)
  {
  }

  lemma StartSound(cfg: V.Config, gap: Time, t0: Time)
    ensures Sound(Start(t0), cfg, gap)
  {
  }

  /**
   In every session the manager accepts whatever the venue reports next, has recorded exactly the shares the
   venue reported, never closes an order the venue still works (a filled fill-or-kill order excepted), and the
   only open orders the venue no longer works are unacknowledged and unfilled.
   */
  lemma SessionAgreement(cap: Option<real>, cfg: V.Config, gap: Time, t0: Time, events: seq<Event>, net: Net, e: Event,
                         c: string)
    requires 0.0 <= cfg.minShares && Session(Start(t0), cap, cfg, gap, events, net) && Timely(net, cfg, gap, e)
    ensures WellFormed(net.book) && !Next(net, cap, cfg, e).1
    ensures c in net.working ==>
              && c in net.book.orders && net.working[c].req == net.book.orders[c].request
              && net.working[c].filled == net.book.orders[c].filledQty
              && (Terminal(net.book.orders[c].state) ==> net.working[c].tif.Fok? && net.book.orders[c].state == Filled)
    ensures c in net.book.orders ==> net.book.orders[c].filledQty == Total(net.tape, c)
    ensures c in net.book.orders && c !in net.working && !Terminal(net.book.orders[c].state) ==>
              net.book.orders[c].state == Submitting && net.book.orders[c].filledQty == 0.0
  {
    StartSound(cfg, gap, t0);
    SessionSound(Start(t0), cap, cfg, gap, events, net);
    NextSound(net, cap, cfg, gap, e);
    hide Next, Session, WellFormed, Total, VR.Placed, VR.Unfinished;
    if c in net.book.orders {
      assert Agree(cfg, gap, net.tick, net.tick, net.book.orders[c], Look(net.working, c));
    }
  }
}
