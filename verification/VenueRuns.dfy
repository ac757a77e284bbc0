/** What one order can experience at the venue, over any sequence of market data, polls and cancels. */
module VenueRuns {
  import opened Wrappers
  import opened RealMath
  import opened Models
  import opened Venue

  /** The execution in a reaction, if there is one; it is always the first event. */
  function Executed(r: Reaction): Option<Fill> {
    if r.events != [] && r.events[0].Fills? then Some(r.events[0].fill) else None
  }

  predicate AtLimitOrBetter(req: OrderRequest, price: real) {
    req.limitPrice.Some? ==> if req.side.Buy? then price <= req.limitPrice.value else price >= req.limitPrice.value
  }

  /** What no event changes about a working order. */
  predicate SameOrder(w: Working, w': Working) {
    && w'.req == w.req && w'.submittedAt == w.submittedAt && w'.ackAt == w.ackAt && w'.activateAt == w.activateAt
    && w'.limit == w.limit && w'.tif == w.tif && w'.awaiting == w.awaiting && w'.cancelAt == w.cancelAt
  }

  predicate Placed(w: Working) {
    && w.limit == w.req.limitPrice && 0.0 <= w.filled && w.filled <= w.req.quantity
    && (!w.awaiting ==> w.tif.Day?)
  }

  /** Orders leave the book as soon as no more than dust is left of them; only fill-or-kill orders do not. */
  predicate Unfinished(w: Working) { !w.tif.Fok? ==> Remaining(w) > DUST }

  /** An execution of this order: within what is left, at the limit or better, not before activation. */
  predicate ProperFill(w: Working, f: Fill, now: Time) {
    && f.symbol == w.req.symbol && f.side == w.req.side && f.coid == w.req.coid && f.traceId == w.req.traceId
    && 0.0 <= f.quantity <= Remaining(w)
    && (f.quantity > 0.0 ==> AtLimitOrBetter(w.req, f.price))
    && now >= w.activateAt
  }

  /** A reaction only concerns its own order, starts with its execution if any, and accounts for it. */
  ghost predicate Proper(w: Working, r: Reaction, now: Time) {
    && (forall i :: 0 < i < |r.events| ==> r.events[i].Acked? || r.events[i].CancelAcked?)
    && (forall i :: 0 <= i < |r.events| ==> r.events[i].coid == w.req.coid)
    && Accounted(w, r, now)
  }

  predicate Accounted(w: Working, r: Reaction, now: Time) {
    && (r.order.Some? ==> SameOrder(w, r.order.value) && Placed(r.order.value))
    && (r.order.Some? && Unfinished(w) ==> Unfinished(r.order.value))
    && (match Executed(r)
        case None => r.order.Some? ==> r.order.value.filled == w.filled
        case Some(f) => ProperFill(w, f, now) && (r.order.Some? ==> r.order.value.filled == w.filled + f.quantity))
  }

  lemma ReactAccounted(cfg: Config, w: Working, input: Input, now: Time)
    requires Placed(w) && 0.0 <= cfg.minShares
    ensures Accounted(w, React(cfg, w, input, now), now)
  {
    hide React;
    ReactSound(cfg, w, input, now);
  }

  lemma AggressProper(cfg: Config, w: Working, q: Quote, now: Time)
    requires Placed(w) && 0.0 <= cfg.minShares && w.awaiting && w.req.symbol == q.symbol && now >= w.activateAt
    ensures Proper(w, Aggress(cfg, w, q), now)
  {
    hide TakeLimit;
  }

  lemma TradeProper(cfg: Config, w: Working, t: Trade, now: Time, accepted: bool)
    requires Placed(w) && 0.0 <= cfg.minShares
    ensures Proper(w, OnTradeOne(cfg, w, t, now, accepted), now)
  {
  }

  lemma IdleProper(w: Working, now: Time)
    requires Placed(w)
    ensures Proper(w, Reaction(Some(w), []), now)
  {
  }

  lemma PollProper(w: Working, now: Time)
    requires Placed(w)
    ensures Proper(w, PollOne(w, now), now)
  {
    var r := PollOne(w, now);
    assert Executed(r).None?;
    assert |r.events| <= 2;
  }

  lemma ReactSound(cfg: Config, w: Working, input: Input, now: Time)
    requires Placed(w) && 0.0 <= cfg.minShares
    ensures Proper(w, React(cfg, w, input, now), now)
  {
    hide Aggress, OnTradeOne, PollOne, Proper, Placed;
    match input
    case QuoteIn(q) =>
      if w.awaiting && w.req.symbol == q.symbol && now >= w.activateAt && q.ts >= w.activateAt {
        AggressProper(cfg, w, q, now);
      } else {
        IdleProper(w, now);
      }
    case TradeIn(t, accepted) =>
      TradeProper(cfg, w, t, now, w.req.coid in accepted);
    case PollIn =>
      PollProper(w, now);
  }

  /**
   Which events can come together.  An order that goes on working reports at most one thing; one that leaves
   the book was filled up or reports a cancel acknowledgement last.
   */
  predicate Shaped(w: Working, r: Reaction, input: Input, now: Time) {
    var n := |r.events|;
    && (w.tif.Fok? && Executed(r).Some? ==> Remaining(Filled(w, Executed(r).value.quantity)) <= DUST)
    && match r.order
       case Some(w') =>
         && (n == 0 || (n == 1 && (r.events[0].Fills? || (r.events[0].Acked? && w'.acked))))
         && ((n == 0 || !r.events[0].Acked?) ==> w'.acked == w.acked)
         && (input.PollIn? ==> w'.acked || now < w.ackAt)
         && (input.PollIn? && w.cancelAt.Some? ==> now < w.cancelAt.value)
       case None =>
         || (n == 1 && r.events[0].CancelAcked?)
         || (n == 2 && r.events[0].Fills? && r.events[1].CancelAcked?)
         || (n == 2 && r.events[0].Acked? && r.events[1].CancelAcked? && w.cancelAt.Some?)
         || (n == 1 && r.events[0].Fills? && Remaining(Filled(w, r.events[0].fill.quantity)) <= DUST)
  }

  lemma AggressShaped(cfg: Config, w: Working, q: Quote, now: Time)
    requires Placed(w) && Unfinished(w) && 0.0 <= cfg.minShares
    ensures Shaped(w, Aggress(cfg, w, q), QuoteIn(q), now)
  {
    hide TakeLimit;
  }

  lemma TradeShaped(cfg: Config, w: Working, t: Trade, now: Time, accepted: set<string>)
    requires Placed(w) && Unfinished(w) && 0.0 <= cfg.minShares
    ensures Shaped(w, OnTradeOne(cfg, w, t, now, w.req.coid in accepted), TradeIn(t, accepted), now)
  {
  }

  lemma PollShaped(w: Working, now: Time)
    ensures Shaped(w, PollOne(w, now), PollIn, now)
  {
  }

  lemma ReactShaped(cfg: Config, w: Working, input: Input, now: Time)
    requires Placed(w) && Unfinished(w) && 0.0 <= cfg.minShares
    ensures Shaped(w, React(cfg, w, input, now), input, now)
  {
    hide Aggress, OnTradeOne, PollOne, Placed;
    match input
    case QuoteIn(q) => AggressShaped(cfg, w, q, now);
    case TradeIn(t, accepted) => TradeShaped(cfg, w, t, now, accepted);
    case PollIn => PollShaped(w, now);
  }

  // ----- the life of one order

  datatype Act = Sees(input: Input, now: Time) | CancelSent(now: Time)

  /**
   An order, its executions with the clock at which they happened, the volume traded exactly at its limit
   while it was resting, and how much of its own quantity was filled by such trades.
   */
  datatype Life = Life(order: Option<Working>, executions: seq<(Time, Fill)>, volume: real, passive: real)

  predicate AtPriceTrade(w: Working, input: Input, now: Time) {
    input.TradeIn? && Exposed(w, input.trade, now) && AtPrice(w, input.trade)
  }

  function Live(cfg: Config, l: Life, act: Act): Life {
    if l.order.None? then l else
    var w := l.order.value;
    match act
    case CancelSent(now) =>
      l.(order := if w.cancelAt.None? then Some(w.(cancelAt := Some(now + cfg.cancelLatency))) else l.order)
    case Sees(input, now) =>
      var r := React(cfg, w, input, now);
      var at := AtPriceTrade(w, input, now);
      Life(r.order,
           match Executed(r) case None => l.executions case Some(f) => l.executions + [(now, f)],
           if at then l.volume + input.trade.size else l.volume,
           if at && Executed(r).Some? then l.passive + Executed(r).value.quantity else l.passive)
  }

  function Lifetime(cfg: Config, l: Life, acts: seq<Act>): Life
    decreases |acts|
  {
    if acts == [] then l else Lifetime(cfg, Live(cfg, l, acts[0]), acts[1..])
  }

  function Shares(executions: seq<(Time, Fill)>): real {
    if executions == [] then 0.0
    else Shares(executions[..|executions| - 1]) + executions[|executions| - 1].1.quantity
  }

  predicate Sizes(acts: seq<Act>) {
    forall a :: a in acts && a.Sees? && a.input.TradeIn? ==> 0.0 <= a.input.trade.size
  }

  ghost predicate ExecutionsSound(w0: Working, l: Life) {
    && 0.0 <= Shares(l.executions) <= w0.req.quantity
    && (forall e :: e in l.executions ==>
          && e.0 >= w0.activateAt && 0.0 <= e.1.quantity && (e.1.quantity > 0.0 ==> AtLimitOrBetter(w0.req, e.1.price)))
    && (l.order.Some? ==>
          var w := l.order.value;
          SameOrder(w0.(cancelAt := w.cancelAt), w) && Placed(w) && w.filled == Shares(l.executions))
  }

  /** Trades at the limit first use up the queue that was ahead; only what is left can fill the order. */
  ghost predicate QueueSound(cfg: Config, ahead: real, l: Life) {
    && 0.0 <= l.passive && 0.0 <= l.volume
    && l.passive <= Max(0.0, l.volume - ahead)
    && (cfg.requireThrough ==> l.passive == 0.0)
    && (l.order.Some? ==>
          var q := l.order.value.queueAhead;
          && 0.0 <= q && (q > 0.0 ==> l.passive == 0.0 && l.volume == ahead - q)
          && (q == 0.0 ==> l.passive + ahead <= l.volume))
  }

  lemma LiveKeepsExecutions(cfg: Config, w0: Working, l: Life, act: Act)
    requires ExecutionsSound(w0, l) && 0.0 <= cfg.minShares
    ensures ExecutionsSound(w0, Live(cfg, l, act))
  {
    hide React, AtPriceTrade, AtLimitOrBetter, Unfinished, Shares, Executed;
    if l.order.Some? && act.Sees? {
      var w := l.order.value;
      ReactAccounted(cfg, w, act.input, act.now);
      var r := React(cfg, w, act.input, act.now);
      if Executed(r).Some? {
        SharesSnoc(l.executions, act.now, Executed(r).value);
      }
    }
  }

  lemma SharesSnoc(executions: seq<(Time, Fill)>, now: Time, f: Fill)
    ensures Shares(executions + [(now, f)]) == Shares(executions) + f.quantity
  {
    var es := executions + [(now, f)];
    assert es[..|es| - 1] == executions;
  }

  lemma LiveKeepsQueue(cfg: Config, w0: Working, ahead: real, l: Life, act: Act)
    requires ExecutionsSound(w0, l) && QueueSound(cfg, ahead, l) && 0.0 <= cfg.minShares && Sizes([act])
    ensures QueueSound(cfg, ahead, Live(cfg, l, act))
  {
    if l.order.Some? && act.Sees? {
      assert act in [act];
      match act.input
      case QuoteIn(q) => hide TakeLimit;
      case TradeIn(t, _) =>
      case PollIn =>
    }
  }

  lemma {:induction false} LifetimeSound(cfg: Config, w0: Working, ahead: real, l: Life, acts: seq<Act>)
    requires ExecutionsSound(w0, l) && QueueSound(cfg, ahead, l) && 0.0 <= cfg.minShares && Sizes(acts)
    ensures ExecutionsSound(w0, Lifetime(cfg, l, acts)) && QueueSound(cfg, ahead, Lifetime(cfg, l, acts))
    decreases |acts|
  {
    if acts != [] {
      LiveKeepsExecutions(cfg, w0, l, acts[0]);
      LiveKeepsQueue(cfg, w0, ahead, l, acts[0]);
      hide ExecutionsSound, QueueSound, Live;
      LifetimeSound(cfg, w0, ahead, Live(cfg, l, acts[0]), acts[1..]);
    }
  }

  /**
   Over any life of an order, of any time in force: it is never overfilled, every real execution is at the
   limit or better and none comes before activation, and trades at the limit fill it with at most the volume
   beyond the queue it joined behind, which is nothing when a trade-through is required.
   */
  lemma VenueFillsSound(cfg: Config, req: OrderRequest, tif: Tif, q: Option<Quote>, now: Time, acts: seq<Act>)
    requires 0.0 <= req.quantity && 0.0 <= cfg.minShares && Sizes(acts)
    requires 0.0 <= Submitted(cfg, req, tif, q, now).queueAhead
    ensures var w := Submitted(cfg, req, tif, q, now);
            var l := Lifetime(cfg, Life(Some(w), [], 0.0, 0.0), acts);
            && Shares(l.executions) <= req.quantity
            && (forall e :: e in l.executions ==>
                  && now + cfg.latency + cfg.extraLatency <= e.0
                  && 0.0 <= e.1.quantity && (e.1.quantity > 0.0 ==> AtLimitOrBetter(req, e.1.price)))
            && l.passive <= Max(0.0, l.volume - w.queueAhead)
            && (cfg.requireThrough ==> l.passive == 0.0)
            && (l.order.Some? ==> l.order.value.filled == Shares(l.executions))
  {
    var w := Submitted(cfg, req, tif, q, now);
    var l := Life(Some(w), [], 0.0, 0.0);
    hide JoinBehind;
    assert ExecutionsSound(w, l) && QueueSound(cfg, w.queueAhead, l);
    LifetimeSound(cfg, w, w.queueAhead, l, acts);
    hide Lifetime, Submitted;
  }

  /**
   A fill-or-kill order that fills stays in the book and answers every later quote it can see with another
   execution of nothing, as long as there is nothing wrong with the displayed size.
   */
  lemma FilledFokLingers(cfg: Config, w: Working, q: Quote, now: Time)
    requires w.tif.Fok? && w.awaiting && w.req.symbol == q.symbol && now >= w.activateAt && q.ts >= w.activateAt
    requires 0.0 <= w.filled <= w.req.quantity && Takes(cfg, w, q) >= Remaining(w)
    ensures var r := OnQuoteOne(cfg, w, q, now);
            && r.order.Some? && Remaining(r.order.value) == 0.0
            && Executed(r).Some? && (Remaining(w) == 0.0 ==> Executed(r).value.quantity == 0.0)
  {
  }
}
