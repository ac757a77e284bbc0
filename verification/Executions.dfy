/** Exactly when, at what price and for how much an order is executed, at any moment of its life at the venue. */
module Executions {
  import opened Wrappers
  import opened RealMath
  import opened Models
  import opened Venue
  import opened VenueRuns

  /** Market orders, limits across the spread, and orders that do not rest wait for a quote to trade on. */
  predicate Crosses(req: OrderRequest, tif: Tif, q: Option<Quote>) {
    || req.orderType.Market? || !tif.Day?
    || (req.limitPrice.Some? && q.Some?
        && if req.side.Buy? then q.value.ask <= req.limitPrice.value else req.limitPrice.value <= q.value.bid)
  }

  /** The displayed size a resting order joins behind: that of its own side. */
  function Ahead(cfg: Config, req: OrderRequest, tif: Tif, q: Option<Quote>): real {
    if Crosses(req, tif, q) || q.None? then 0.0
    else (if req.side.Buy? then q.value.bidSize else q.value.askSize) * cfg.queueFactor
  }

  /** The price and size across the spread: a buyer pays the ask, a seller receives the bid. */
  function FarPrice(side: Side, q: Quote): real { if side.Buy? then q.ask else q.bid }

  function FarSize(side: Side, q: Quote): real { if side.Buy? then q.askSize else q.bidSize }

  /** No worse for the order than its limit, if it has one. */
  predicate Within(req: OrderRequest, price: real) {
    req.limitPrice.Some? ==> if req.side.Buy? then price <= req.limitPrice.value else req.limitPrice.value <= price
  }

  function Begun(cfg: Config, req: OrderRequest, tif: Tif, q: Option<Quote>, now: Time): Life {
    Life(Some(Submitted(cfg, req, tif, q, now)), [], 0.0, 0.0)
  }

  /** What is fixed at submission, in terms of the request and the quote at hand. */
  lemma SubmittedAs(cfg: Config, req: OrderRequest, tif: Tif, q: Option<Quote>, now: Time)
    ensures var w := Submitted(cfg, req, tif, q, now);
            && w.req == req && w.tif == tif && w.limit == req.limitPrice && w.filled == 0.0
            && !w.acked && w.cancelAt == None
            && (w.awaiting <==> Crosses(req, tif, q)) && w.queueAhead == Ahead(cfg, req, tif, q)
            && w.ackAt == now + cfg.ackLatency && w.activateAt == now + cfg.latency + cfg.extraLatency
  {
  }

  // ----- one reaction

  /** How much of a quote an order takes, if it trades on it. */
  function QuoteShare(cfg: Config, w: Working, q: Quote, now: Time): Option<real> {
    var left := Remaining(w);
    var take := if Within(w.req, FarPrice(w.req.side, q)) then FarSize(w.req.side, q) * cfg.takeFraction else 0.0;
    if w.req.symbol != q.symbol || !w.awaiting || now < w.activateAt || q.ts < w.activateAt then None
    else if w.tif.Fok? then (if left <= take then Some(left) else None)
    else if Max(cfg.minShares, DUST) <= Min(take, left) then Some(Min(take, left)) else None
  }

  /** How much of a trade a resting order gets, if anything. */
  function TradeShare(cfg: Config, w: Working, t: Trade, now: Time, accepted: bool): Option<real> {
    var left := Remaining(w);
    if w.req.symbol != t.symbol || w.awaiting || w.limit.None? || now < w.activateAt || !accepted then None
    else if (if w.req.side.Buy? then t.price < w.limit.value else w.limit.value < t.price) then Some(left)
    else if Abs(t.price - w.limit.value) < DUST && w.queueAhead <= 0.0 && !cfg.requireThrough
            && cfg.minShares <= Min(t.size, left) then Some(Min(t.size, left))
    else None
  }

  /** An execution of the order at a price, for a share, at a time. */
  predicate IsExecution(f: Fill, w: Working, share: real, price: real, ts: Time) {
    && f.symbol == w.req.symbol && f.side == w.req.side && f.coid == w.req.coid && f.traceId == w.req.traceId
    && f.quantity == share && f.price == price && f.ts == ts
    && (f.partial <==> DUST < w.req.quantity - (w.filled + share))
  }

  lemma FarTake(cfg: Config, w: Working, q: Quote)
    requires w.limit == w.req.limitPrice
    ensures TouchPrice(w, q) == FarPrice(w.req.side, q)
    ensures Takes(cfg, w, q)
            == if Within(w.req, FarPrice(w.req.side, q)) then FarSize(w.req.side, q) * cfg.takeFraction else 0.0
  {
  }

  /** On a quote an order is executed for exactly its share, at the far side of the spread; then it goes, or stays. */
  lemma QuoteTaken(cfg: Config, w: Working, q: Quote, now: Time)
    requires w.limit == w.req.limitPrice
    ensures var r, share := React(cfg, w, QuoteIn(q), now), QuoteShare(cfg, w, q, now);
            && (Executed(r).Some? <==> share.Some?)
            && (share.Some? ==> IsExecution(Executed(r).value, w, share.value, FarPrice(w.req.side, q), q.ts))
  {
    hide Takes, TouchPrice, FarSize, FarPrice, Within, TakeLimit;
    FarTake(cfg, w, q);
  }

  lemma TradeTaken(cfg: Config, w: Working, t: Trade, accepted: set<string>, now: Time)
    ensures var r := React(cfg, w, TradeIn(t, accepted), now);
            var share := TradeShare(cfg, w, t, now, w.req.coid in accepted);
            && (Executed(r).Some? <==> share.Some?)
            && (share.Some? ==> w.limit.Some? && IsExecution(Executed(r).value, w, share.value, w.limit.value, t.ts))
  {
  }

  predicate Eligible(w: Working, q: Quote, now: Time) {
    w.limit == w.req.limitPrice && w.req.symbol == q.symbol && w.awaiting && w.activateAt <= now && w.activateAt <= q.ts
  }

  function Taken(cfg: Config, w: Working, q: Quote, now: Time): real {
    match QuoteShare(cfg, w, q, now) case None => 0.0 case Some(share) => share
  }

  /** A fill-or-kill order that is not filled goes, with a cancel acknowledgement. */
  lemma FokLeaves(cfg: Config, w: Working, q: Quote, now: Time)
    requires Eligible(w, q, now) && w.tif.Fok?
    ensures var r, share := React(cfg, w, QuoteIn(q), now), QuoteShare(cfg, w, q, now);
            if share.None? then r.order.None? && r.events == [CancelAcked(w.req.coid)]
            else r.order == Some(w.(filled := w.filled + share.value)) && |r.events| == 1
  {
    hide Takes, TouchPrice, FarSize, FarPrice, Within, TakeLimit;
    FarTake(cfg, w, q);
  }

  /** An immediate order goes in any case, with a cancel acknowledgement for what is left. */
  lemma IocLeaves(cfg: Config, w: Working, q: Quote, now: Time)
    requires Eligible(w, q, now) && w.tif.Ioc?
    ensures var r := React(cfg, w, QuoteIn(q), now);
            && r.order.None?
            && (CancelAcked(w.req.coid) in r.events <==> DUST < Left(w, Taken(cfg, w, q, now)))
  {
    hide Takes, TouchPrice, FarSize, FarPrice, Within, TakeLimit;
    FarTake(cfg, w, q);
  }

  /** A day order goes once no more than dust is left, and stays with what is left otherwise. */
  lemma DayLeaves(cfg: Config, w: Working, q: Quote, now: Time)
    requires Eligible(w, q, now) && w.tif.Day?
    ensures var r, share := React(cfg, w, QuoteIn(q), now), Taken(cfg, w, q, now);
            && r.order == (if Left(w, share) <= DUST then None else Some(w.(filled := w.filled + share)))
            && CancelAcked(w.req.coid) !in r.events
  {
    hide Takes, TouchPrice, FarSize, FarPrice, Within, TakeLimit;
    FarTake(cfg, w, q);
  }

  function Left(w: Working, share: real): real { Max(0.0, w.req.quantity - (w.filled + share)) }

  // ----- at any moment of an order's life

  /** What the life of an order fixes about the order, whatever it has been through. */
  ghost predicate Steady(cfg: Config, w0: Working, l: Life) {
    ExecutionsSound(w0, l) && QueueSound(cfg, w0.queueAhead, l)
  }

  lemma LivesOn(cfg: Config, req: OrderRequest, tif: Tif, q0: Option<Quote>, t0: Time, acts: seq<Act>)
    requires 0.0 <= req.quantity && 0.0 <= cfg.minShares && Sizes(acts) && 0.0 <= Ahead(cfg, req, tif, q0)
    ensures Steady(cfg, Submitted(cfg, req, tif, q0, t0), Lifetime(cfg, Begun(cfg, req, tif, q0, t0), acts))
  {
    SubmittedAs(cfg, req, tif, q0, t0);
    var w := Submitted(cfg, req, tif, q0, t0);
    hide Submitted, Ahead;
    assert Steady(cfg, w, Begun(cfg, req, tif, q0, t0));
    LifetimeSound(cfg, w, w.queueAhead, Begun(cfg, req, tif, q0, t0), acts);
    hide Lifetime, Begun;
  }

  lemma SteadyOrder(cfg: Config, w0: Working, l: Life)
    requires Steady(cfg, w0, l) && l.order.Some?
    ensures var w := l.order.value;
            && w.req == w0.req && w.limit == w0.limit && w.tif == w0.tif && w.awaiting == w0.awaiting
            && w.ackAt == w0.ackAt && w.activateAt == w0.activateAt
            && w.filled == Shares(l.executions) <= w0.req.quantity && w.limit == w.req.limitPrice
            && w.queueAhead == Max(0.0, w0.queueAhead - l.volume)
  {
    hide Shares;
  }

  /**
   At any moment of its life, an order is executed on a quote if and only if it trades across the spread, is active,
   and what it may take of the size displayed across the spread is enough: then for exactly that much and no more
   than is left, at the ask for a buy and the bid for a sell, and for nothing when that is beyond its limit.
   */
  lemma QuoteExecution(cfg: Config, req: OrderRequest, tif: Tif, q0: Option<Quote>, t0: Time, acts: seq<Act>, q: Quote,
                       now: Time)
    requires 0.0 <= req.quantity && 0.0 <= cfg.minShares && Sizes(acts) && 0.0 <= Ahead(cfg, req, tif, q0)
    requires Lifetime(cfg, Begun(cfg, req, tif, q0, t0), acts).order.Some?
    ensures var l := Lifetime(cfg, Begun(cfg, req, tif, q0, t0), acts);
            var l', left := Live(cfg, l, Sees(QuoteIn(q), now)), req.quantity - Shares(l.executions);
            var far := FarPrice(req.side, q);
            var take := if Within(req, far) then FarSize(req.side, q) * cfg.takeFraction else 0.0;
            var active := req.symbol == q.symbol && Crosses(req, tif, q0)
                          && t0 + cfg.latency + cfg.extraLatency <= now && t0 + cfg.latency + cfg.extraLatency <= q.ts;
            var enough := if tif.Fok? then left <= take else Max(cfg.minShares, DUST) <= Min(take, left);
            if active && enough then
              && |l'.executions| == |l.executions| + 1 && l'.executions[..|l.executions|] == l.executions
              && var f := l'.executions[|l.executions|].1;
                 && f.price == far && f.side == req.side && f.ts == q.ts
                 && f.quantity == if tif.Fok? then left else Min(take, left)
            else l'.executions == l.executions
  {
    hide Lifetime, Begun, Submitted, React, Crosses, Ahead, Steady, FarSize, FarPrice, Within, Shares, AtPriceTrade;
    LivesOn(cfg, req, tif, q0, t0, acts);
    SubmittedAs(cfg, req, tif, q0, t0);
    var l := Lifetime(cfg, Begun(cfg, req, tif, q0, t0), acts);
    SteadyOrder(cfg, Submitted(cfg, req, tif, q0, t0), l);
    QuoteTaken(cfg, l.order.value, q, now);
  }

  /**
   At any moment of its life, a resting order is executed on a trade if and only if the draw accepts it and the trade
   is past its limit, or at its limit once the volume there has used up the queue it joined behind; then at its limit.
   */
  lemma TradeExecution(cfg: Config, req: OrderRequest, tif: Tif, q0: Option<Quote>, t0: Time, acts: seq<Act>, t: Trade,
                       accepted: set<string>, now: Time)
    requires 0.0 <= req.quantity && 0.0 <= cfg.minShares && Sizes(acts) && 0.0 <= Ahead(cfg, req, tif, q0)
    requires Lifetime(cfg, Begun(cfg, req, tif, q0, t0), acts).order.Some?
    ensures var l := Lifetime(cfg, Begun(cfg, req, tif, q0, t0), acts);
            var l', left := Live(cfg, l, Sees(TradeIn(t, accepted), now)), req.quantity - Shares(l.executions);
            var sees := req.symbol == t.symbol && !Crosses(req, tif, q0) && req.limitPrice.Some?
                        && t0 + cfg.latency + cfg.extraLatency <= now && req.coid in accepted;
            var past := sees
                        && if req.side.Buy? then t.price < req.limitPrice.value else req.limitPrice.value < t.price;
            var at := sees && !past && Abs(t.price - req.limitPrice.value) < DUST && !cfg.requireThrough
                      && Ahead(cfg, req, tif, q0) <= l.volume && cfg.minShares <= Min(t.size, left);
            if past || at then
              && |l'.executions| == |l.executions| + 1 && l'.executions[..|l.executions|] == l.executions
              && var f := l'.executions[|l.executions|].1;
                 && f.price == req.limitPrice.value && f.side == req.side && f.ts == t.ts
                 && f.quantity == if past then left else Min(t.size, left)
            else l'.executions == l.executions
  {
    hide Lifetime, Begun, Submitted, React, Crosses, Ahead, Steady, Shares, AtPriceTrade;
    LivesOn(cfg, req, tif, q0, t0, acts);
    SubmittedAs(cfg, req, tif, q0, t0);
    var l := Lifetime(cfg, Begun(cfg, req, tif, q0, t0), acts);
    SteadyOrder(cfg, Submitted(cfg, req, tif, q0, t0), l);
    TradeTaken(cfg, l.order.value, t, accepted, now);
  }

  /** A poll acknowledges exactly from the acknowledgement latency on, once, and cancels exactly what is due. */
  lemma PollReports(cfg: Config, req: OrderRequest, tif: Tif, q0: Option<Quote>, t0: Time, acts: seq<Act>, now: Time)
    requires 0.0 <= req.quantity && 0.0 <= cfg.minShares && Sizes(acts) && 0.0 <= Ahead(cfg, req, tif, q0)
    requires Lifetime(cfg, Begun(cfg, req, tif, q0, t0), acts).order.Some?
    ensures var w := Lifetime(cfg, Begun(cfg, req, tif, q0, t0), acts).order.value;
            var r := React(cfg, w, PollIn, now);
            var due := w.cancelAt.Some? && w.cancelAt.value <= now;
            && (Acked(req.coid) in r.events <==> !w.acked && t0 + cfg.ackLatency <= now)
            && (CancelAcked(req.coid) in r.events <==> due) && (r.order.None? <==> due)
            && (r.order.Some? ==> (r.order.value.acked <==> w.acked || t0 + cfg.ackLatency <= now))
  {
    LivesOn(cfg, req, tif, q0, t0, acts);
    SubmittedAs(cfg, req, tif, q0, t0);
    SteadyOrder(cfg, Submitted(cfg, req, tif, q0, t0), Lifetime(cfg, Begun(cfg, req, tif, q0, t0), acts));
    hide Lifetime, Begun, Submitted, Crosses, Ahead, Steady;
  }
}
