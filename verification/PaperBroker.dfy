/** The older paper broker, and why the venue simulator never fills a resting order more than it does. */
module PaperBroker {
  import opened Wrappers
  import opened RealMath
  import opened Models
  import Venue
  import VenueRuns

  datatype OrderStatus = Submitted | Partial | Filled | Cancelled | Rejected

  datatype Resting = Resting(request: OrderRequest, activeAt: Time, queueAhead: real, filled: real,
                             throughSeen: bool, cancelAt: Option<Time>)

  /** What a trade does to one resting order. */
  datatype Reaction = Reaction(order: Option<Resting>, fills: seq<Fill>, status: Option<OrderStatus>)

  /** Beyond the limit by more than the price tolerance. */
  predicate Through(side: Side, limit: real, price: real) {
    if side.Buy? then price < limit - DUST else price > limit + DUST
  }

  function LimitFill(r: OrderRequest, quantity: real, ts: Time, partial: bool): Fill
    requires r.limitPrice.Some?
  {
    Fill(r.symbol, r.side, quantity, r.limitPrice.value, ts, r.coid, r.traceId, partial)
  }

  function OnTradeOne(cfg: Venue.Config, o: Resting, t: Trade, now: Time): Reaction {
    var r := o.request;
    if r.symbol != t.symbol || now < o.activeAt then Reaction(Some(o), [], None)
    else if o.cancelAt.Some? && now >= o.cancelAt.value then
      Reaction(None, [], Some(if o.filled > 0.0 then Partial else Cancelled))
    else if r.limitPrice.None? then Reaction(Some(o), [], None)
    else if Through(r.side, r.limitPrice.value, t.price) then
      var quantity := r.quantity - o.filled;
      Reaction(None, if quantity > 0.0 then [LimitFill(r, quantity, t.ts, false)] else [], Some(Filled))
    else if Abs(t.price - r.limitPrice.value) < DUST then
      var consumed := Min(o.queueAhead, t.size);
      var spill := t.size - consumed;
      var o' := o.(queueAhead := o.queueAhead - consumed);
      var quantity := Min(spill, r.quantity - o.filled);
      if spill > 0.0 && (o.throughSeen || !cfg.requireThrough) && quantity > 0.0 then
        var filled := o.filled + quantity;
        if filled >= r.quantity then Reaction(None, [LimitFill(r, quantity, t.ts, false)], Some(Filled))
        else Reaction(Some(o'.(filled := filled)), [LimitFill(r, quantity, t.ts, true)], Some(Partial))
      else Reaction(Some(o'), [], None)
    else Reaction(Some(o), [], None)
  }

  type Book = map<string, Resting>
  type Statuses = map<string, OrderStatus>

  datatype State = State(orders: Book, statuses: Statuses, fills: seq<Fill>)

  function File(s: State, coid: string, r: Reaction): State {
    State(if r.order.Some? then s.orders[coid := r.order.value] else s.orders - {coid},
          if r.status.Some? then s.statuses[coid := r.status.value] else s.statuses,
          s.fills + r.fills)
  }

  function Visit(cfg: Venue.Config, ids: seq<string>, s: State, t: Trade, now: Time): State
    decreases |ids|
  {
    if ids == [] then s
    else Visit(cfg, ids[1..], if ids[0] in s.orders then File(s, ids[0],
                                                              OnTradeOne(cfg, s.orders[ids[0]], t, now)) else s, t, now)
  }

  predicate Marketable(order: OrderRequest, q: Quote) {
    order.orderType.Market? || (order.limitPrice.Some? &&
      if order.side.Buy? then order.limitPrice.value >= q.ask else order.limitPrice.value <= q.bid)
  }

  /** Whole shares taken at once from the touch, rounded down. */
  function Immediate(cfg: Venue.Config, order: OrderRequest, q: Quote, now: Time): Fill {
    var take := Min(order.quantity, Max(cfg.minShares, Venue.TakeLimit(cfg, order.side, q)));
    Fill(order.symbol, order.side, Truncate(take) as real, if order.side.Buy? then q.ask else q.bid, now + cfg.latency,
         order.coid, order.traceId, take < order.quantity)
  }

  function Rest(cfg: Venue.Config, order: OrderRequest, q: Quote, now: Time): Resting {
    Resting(order, now + cfg.latency, Venue.JoinBehind(cfg, order.side, q), 0.0, false, None)
  }

  /** What `submit` leaves behind, and the status it returns. */
  function Accept(cfg: Venue.Config, s: State, order: OrderRequest, q: Quote, now: Time): (State, OrderStatus) {
    var mark := (status: OrderStatus) => (s.(statuses := s.statuses[order.coid := status]), status);
    if order.quantity <= 0.0 then mark(Rejected)
    else if order.coid in s.orders || order.coid in s.statuses then
      (s, if order.coid in s.statuses then s.statuses[order.coid] else Submitted)
    else if Marketable(order, q) then
      var fill := Immediate(cfg, order, q, now);
      if fill.quantity <= 0.0 then mark(Cancelled) else
      var status := if fill.partial then Partial else Filled;
      (State(s.orders, s.statuses[order.coid := status], s.fills + [fill]), status)
    else (State(s.orders[order.coid := Rest(cfg, order, q, now)], s.statuses[order.coid := Submitted], s.fills),
          Submitted)
  }

  /** An immediate fill is a whole number of shares and never more than was ordered. */
  lemma ImmediateBounds(cfg: Venue.Config, order: OrderRequest, q: Quote, now: Time)
    requires 0.0 < order.quantity && 0.0 <= cfg.minShares
    ensures 0.0 <= Immediate(cfg, order, q, now).quantity <= order.quantity
    ensures !Immediate(cfg, order, q, now).partial ==> order.quantity - Immediate(cfg, order, q, now).quantity < 1.0
  {
    hide Venue.TakeLimit;
  }

  /** A marketable order trades at once at the far side of the spread, for as many whole shares as it may take. */
  lemma ImmediateExact(cfg: Venue.Config, order: OrderRequest, q: Quote, now: Time)
    requires 0.0 < order.quantity && 0.0 <= cfg.minShares
    ensures var f := Immediate(cfg, order, q, now);
            var size := if order.side.Buy? then q.askSize else q.bidSize;
            var most := Min(order.quantity, Max(cfg.minShares, size * cfg.takeFraction));
            && f.price == (if order.side.Buy? then q.ask else q.bid) && f.side == order.side && f.coid == order.coid
            && f.quantity <= most < f.quantity + 1.0 && (f.partial <==> most < order.quantity)
            && f.ts == now + cfg.latency
  {
  }

  /** What becomes of a submission: refused, already known, traded at once, too small to trade, or resting. */
  lemma AcceptedAs(cfg: Venue.Config, s: State, order: OrderRequest, q: Quote, now: Time)
    ensures var (s', status) := Accept(cfg, s, order, q, now);
            var known := order.coid in s.orders || order.coid in s.statuses;
            var crosses := order.orderType.Market? || (order.limitPrice.Some?
                           && if order.side.Buy? then q.ask <= order.limitPrice.value
                              else order.limitPrice.value <= q.bid);
            && (status == Rejected && s'.orders == s.orders && s'.fills == s.fills <== order.quantity <= 0.0)
            && (known && 0.0 < order.quantity ==> s' == s)
            && (!known && 0.0 < order.quantity && crosses ==>
                  && s'.orders == s.orders && status in {Cancelled, Partial, Filled}
                  && s'.fills == if status == Cancelled then s.fills else s.fills + [Immediate(cfg, order, q, now)])
            && (!known && 0.0 < order.quantity && !crosses ==>
                  && status == Submitted && s'.fills == s.fills && order.coid in s'.orders
                  && var o := s'.orders[order.coid];
                     && o.request == order && o.activeAt == now + cfg.latency && o.filled == 0.0 && o.cancelAt == None
                     && o.queueAhead == (if order.side.Buy? then q.bidSize else q.askSize) * cfg.queueFactor)
  {
    hide Immediate;
  }

  /** Resting orders are filled at their limit, on their own side, and never for more than is left. */
  lemma RestingFill(cfg: Venue.Config, o: Resting, t: Trade, now: Time)
    ensures var r := OnTradeOne(cfg, o, t, now);
            && |r.fills| <= 1
            && forall f :: f in r.fills ==>
                 && o.request.limitPrice == Some(f.price) && f.side == o.request.side && f.coid == o.request.coid
                 && f.symbol == o.request.symbol && f.ts == t.ts && 0.0 < f.quantity <= o.request.quantity - o.filled
  {
  }

  class PaperBroker {
    const cfg: Venue.Config
    var ids: seq<string>
    var orders: Book
    var statuses: Statuses
    var fills: seq<Fill>

    ghost predicate Valid()
      reads this
    {
      forall c :: c in orders ==> c in ids
    }

    ghost function Current(): State
      reads this
    {
      State(orders, statuses, fills)
    }

    constructor (cfg: Venue.Config)
      ensures Valid() && this.cfg == cfg && Current() == State(map[], map[], [])
    {
      this.cfg := cfg;
      ids, orders, statuses, fills := [], map[], map[], [];
    }

    method Submit(order: OrderRequest, q: Quote, now: Time) returns (status: OrderStatus)
      requires Valid()
      modifies this
      ensures Valid() && (Current(), status) == Accept(cfg, old(Current()), order, q, now)
    {
      hide Venue.TakeLimit, Venue.JoinBehind;
      if order.quantity <= 0.0 {
        statuses := statuses[order.coid := Rejected];
        return Rejected;
      }
      if order.coid in orders || order.coid in statuses {
        return if order.coid in statuses then statuses[order.coid] else Submitted;
      }
      var activeAt := now + cfg.latency;
      if Marketable(order, q) {
        var take := Min(order.quantity, Max(cfg.minShares, Venue.TakeLimit(cfg, order.side, q)));
        var fill := Fill(order.symbol, order.side, Truncate(take) as real, if order.side.Buy? then q.ask else q.bid,
                         activeAt,
                         order.coid, order.traceId, take < order.quantity);
        if fill.quantity <= 0.0 {
          statuses := statuses[order.coid := Cancelled];
          return Cancelled;
        }
        fills := fills + [fill];
        status := if fill.partial then Partial else Filled;
        statuses := statuses[order.coid := status];
        return;
      }
      ids := ids + [order.coid];
      orders := orders[order.coid := Resting(order, activeAt, Venue.JoinBehind(cfg, order.side, q), 0.0, false, None)];
      statuses := statuses[order.coid := Submitted];
      status := Submitted;
    }

    method OnTrade(t: Trade, now: Time) returns (out: seq<Fill>)
      requires Valid()
      modifies this`orders, this`statuses, this`fills
      ensures Valid() && Current() == Visit(cfg, ids, old(Current()), t, now)
      ensures fills == old(fills) + out
    {
      out := [];
      assert ids[0..] == ids;
      for i := 0 to |ids|
        invariant Valid() && fills == old(fills) + out
        invariant Visit(cfg, ids, old(Current()), t, now) == Visit(cfg, ids[i..], Current(), t, now)
      {
        VisitNext(cfg, ids, i, Current(), t, now);
        hide Visit;
        if ids[i] in orders {
          var f := Progress(ids[i], t, now);
          assert (old(fills) + out) + f == old(fills) + (out + f);
          out := out + f;
        }
      }
      assert ids[|ids|..] == [];
    }

    /** The loop body of `on_trade` for one resting order. */
    method Progress(coid: string, t: Trade, now: Time) returns (out: seq<Fill>)
      requires Valid() && coid in orders
      modifies this`orders, this`statuses, this`fills
      ensures Valid()
      ensures var r := OnTradeOne(cfg, old(orders)[coid], t, now);
              Current() == File(old(Current()), coid, r) && out == r.fills
    {
      out := [];
      var o := orders[coid];
      assert orders[coid := o] == orders && fills + [] == fills;
      var r := o.request;
      if r.symbol != t.symbol || now < o.activeAt { return; }
      if o.cancelAt.Some? && now >= o.cancelAt.value {
        statuses := statuses[coid := if o.filled > 0.0 then Partial else Cancelled];
        orders := orders - {coid};
        return;
      }
      if r.limitPrice.None? { return; }
      var limit := r.limitPrice.value;
      if Through(r.side, limit, t.price) {
        var quantity := r.quantity - o.filled;
        if quantity > 0.0 {
          out := [Fill(r.symbol, r.side, quantity, limit, t.ts, r.coid, r.traceId, false)];
          fills := fills + out;
        }
        statuses := statuses[coid := Filled];
        orders := orders - {coid};
      } else if Abs(t.price - limit) < DUST {
        var consumed := Min(o.queueAhead, t.size);
        o := o.(queueAhead := o.queueAhead - consumed);
        var spill := t.size - consumed;
        var quantity := Min(spill, r.quantity - o.filled);
        if spill > 0.0 && (o.throughSeen || !cfg.requireThrough) && quantity > 0.0 {
          o := o.(filled := o.filled + quantity);
          out := [Fill(r.symbol, r.side, quantity, limit, t.ts, r.coid, r.traceId, o.filled < r.quantity)];
          fills := fills + out;
          if o.filled >= r.quantity {
            statuses := statuses[coid := Filled];
            orders := orders - {coid};
            return;
          }
          statuses := statuses[coid := Partial];
        }
        orders := orders[coid := o];
      }
    }
  }

  lemma VisitNext(cfg: Venue.Config, ids: seq<string>, i: nat, s: State, t: Trade, now: Time)
    requires i < |ids|
    ensures Visit(cfg, ids[i..], s, t, now)
            == Visit(cfg, ids[i + 1..], if ids[i] in s.orders then File(s, ids[i],
                                                                        OnTradeOne(cfg, s.orders[ids[i]], t,
                                                                                   now)) else s, t, now)
  {
    assert ids[i..][1..] == ids[i + 1..];
    hide OnTradeOne, File;
  }

  // ----- the two simulators side by side

  /** One resting order in both simulators, with what each has filled so far. */
  datatype Race = Race(venue: Option<Venue.Working>, venueFilled: real, broker: Option<Resting>, brokerFilled: real)

  function FillTotal(fills: seq<Fill>): real {
    if fills == [] then 0.0 else fills[0].quantity + FillTotal(fills[1..])
  }

  function Both(cfg: Venue.Config, s: Race, input: Venue.Input, now: Time): Race {
    var (venue, vf) :=
      match s.venue
      case None => (None, s.venueFilled)
      case Some(w) =>
        var r := Venue.React(cfg, w, input, now);
        (r.order, match VenueRuns.Executed(r) case None => s.venueFilled case Some(f) => s.venueFilled + f.quantity);
    if input.TradeIn? && s.broker.Some? then
      var r := OnTradeOne(cfg, s.broker.value, input.trade, now);
      Race(venue, vf, r.order, s.brokerFilled + FillTotal(r.fills))
    else Race(venue, vf, s.broker, s.brokerFilled)
  }

  function Tape(cfg: Venue.Config, s: Race, tape: seq<(Venue.Input, Time)>): Race
    decreases |tape|
  {
    if tape == [] then s else Tape(cfg, Both(cfg, s, tape[0].0, tape[0].1), tape[1..])
  }

  /** Past the limit, but by no more than the tolerance: off every price grid coarser than it. */
  predicate InBand(req: OrderRequest, price: real) {
    req.limitPrice.Some? && if req.side.Buy? then 0.0 < req.limitPrice.value - price <= DUST
                            else 0.0 < price - req.limitPrice.value <= DUST
  }

  predicate OnGrid(req: OrderRequest, input: Venue.Input) {
    input.TradeIn? ==> 0.0 <= input.trade.size && !InBand(req, input.trade.price)
  }

  ghost predicate Dominated(req: OrderRequest, s: Race) {
    && s.venueFilled <= s.brokerFilled <= req.quantity
    && (s.broker.None? ==> s.brokerFilled == req.quantity)
    && (s.venue.Some? ==>
          var w := s.venue.value;
          w.req == req && w.filled == s.venueFilled && VenueRuns.Placed(w) && !w.awaiting && w.cancelAt.None?)
    && (s.broker.Some? ==>
          var o := s.broker.value;
          o.request == req && o.filled == s.brokerFilled && o.cancelAt.None? && !o.throughSeen)
    && (s.venue.Some? && s.broker.Some? ==>
          && 0.0 <= s.broker.value.queueAhead <= s.venue.value.queueAhead
          && s.broker.value.activeAt <= s.venue.value.activateAt)
  }

  lemma FillTotalOne(f: Fill)
    ensures FillTotal([f]) == f.quantity
  {
    assert [f][1..] == [];
  }

  /** The broker never overfills, and drops an order it was not told to cancel only when it is full. */
  lemma BrokerSound(cfg: Venue.Config, o: Resting, t: Trade, now: Time)
    requires o.filled <= o.request.quantity && o.cancelAt.None? && !o.throughSeen && 0.0 <= t.size
    ensures var r := OnTradeOne(cfg, o, t, now);
            && 0.0 <= FillTotal(r.fills) && o.filled + FillTotal(r.fills) <= o.request.quantity
            && (r.order.None? ==> o.filled + FillTotal(r.fills) == o.request.quantity)
            && (r.order.Some? ==> var o' := r.order.value;
                                  o' == o.(queueAhead := o'.queueAhead, filled := o.filled + FillTotal(r.fills)))
  {
    var r := OnTradeOne(cfg, o, t, now);
    if r.fills != [] { FillTotalOne(r.fills[0]); }
  }

  /** On one grid trade the broker fills at least as much, and its queue stays the shorter one. */
  lemma TradeCompares(cfg: Venue.Config, w: Venue.Working, o: Resting, t: Trade, accepted: bool, now: Time)
    requires w.req == o.request && w.limit == w.req.limitPrice && !w.awaiting
    requires 0.0 <= w.filled <= o.filled <= o.request.quantity && o.cancelAt.None? && !o.throughSeen
    requires 0.0 <= o.queueAhead <= w.queueAhead && o.activeAt <= w.activateAt
    requires 0.0 <= t.size && !InBand(w.req, t.price) && 0.0 <= cfg.minShares
    ensures var v, b := Venue.OnTradeOne(cfg, w, t, now, accepted), OnTradeOne(cfg, o, t, now);
            var x := match VenueRuns.Executed(v) case None => 0.0 case Some(f) => f.quantity;
            && w.filled + x <= o.filled + FillTotal(b.fills)
            && (v.order.Some? && b.order.Some? ==> 0.0 <= b.order.value.queueAhead <= v.order.value.queueAhead)
  {
    var b := OnTradeOne(cfg, o, t, now);
    if b.fills != [] { FillTotalOne(b.fills[0]); }
  }

  lemma BothKeepsDominated(cfg: Venue.Config, req: OrderRequest, s: Race, input: Venue.Input, now: Time)
    requires Dominated(req, s) && OnGrid(req, input) && 0.0 <= cfg.minShares
    ensures Dominated(req, Both(cfg, s, input, now))
  {
    if s.venue.Some? {
      VenueRuns.ReactSound(cfg, s.venue.value, input, now);
    }
    match input
    case QuoteIn(_) => hide Venue.TakeLimit;
    case TradeIn(t, accepted) =>
      if s.broker.Some? {
        BrokerSound(cfg, s.broker.value, t, now);
        if s.venue.Some? {
          TradeCompares(cfg, s.venue.value, s.broker.value, t, req.coid in accepted, now);
        }
      }
      hide OnTradeOne, Venue.OnTradeOne, InBand, VenueRuns.ProperFill;
    case PollIn =>
  }

  lemma {:induction false} TapeDominated(cfg: Venue.Config, req: OrderRequest, s: Race, tape: seq<(Venue.Input, Time)>)
    requires Dominated(req, s) && 0.0 <= cfg.minShares && forall e :: e in tape ==> OnGrid(req, e.0)
    ensures Dominated(req, Tape(cfg, s, tape))
    decreases |tape|
  {
    if tape != [] {
      BothKeepsDominated(cfg, req, s, tape[0].0, tape[0].1);
      hide Dominated, Both, OnGrid;
      TapeDominated(cfg, req, Both(cfg, s, tape[0].0, tape[0].1), tape[1..]);
    }
  }

  /**
   A passive limit order submitted to both simulators on the same quote: on every tape of grid prices, for
   every outcome of the random draws and any extra latency, the venue has never filled more than the broker.
   */
  lemma VenueNeverOutfillsBroker(cfg: Venue.Config, req: OrderRequest, q: Quote, now: Time,
                                 tape: seq<(Venue.Input, Time)>)
    requires 0.0 < req.quantity && !Marketable(req, q) && 0.0 <= cfg.extraLatency && 0.0 <= cfg.minShares
    requires 0.0 <= Venue.JoinBehind(cfg, req.side, q)
    requires forall e :: e in tape ==> OnGrid(req, e.0)
    ensures var w := Venue.Submitted(cfg, req, Venue.Day, Some(q), now);
            var s := Race(Some(w), 0.0, Some(Rest(cfg, req, q, now)), 0.0);
            Tape(cfg, s, tape).venueFilled <= Tape(cfg, s, tape).brokerFilled <= req.quantity
  {
    var s := Race(Some(Venue.Submitted(cfg, req, Venue.Day, Some(q), now)), 0.0, Some(Rest(cfg, req, q, now)), 0.0);
    hide Venue.JoinBehind;
    assert Dominated(req, s);
    TapeDominated(cfg, req, s, tape);
    hide Tape;
  }

  /**
   The grid is what it takes: with trade-throughs required, a trade that the venue accepts for an order both
   simulators are equally far with overtakes the broker exactly when its price is in the band.
   */
  lemma BandBreaksDominance(cfg: Venue.Config, req: OrderRequest, s: Race, t: Trade, accepted: set<string>, now: Time)
    requires Dominated(req, s) && s.venue.Some? && s.broker.Some? && s.venueFilled == s.brokerFilled < req.quantity
    requires cfg.requireThrough && 0.0 <= cfg.minShares && 0.0 <= t.size
    requires t.symbol == req.symbol && req.limitPrice.Some? && now >= s.venue.value.activateAt && req.coid in accepted
    ensures var s' := Both(cfg, s, Venue.TradeIn(t, accepted), now);
            s'.venueFilled <= s'.brokerFilled <==> !InBand(req, t.price)
  {
    if !InBand(req, t.price) {
      BothKeepsDominated(cfg, req, s, Venue.TradeIn(t, accepted), now);
    }
  }
}
