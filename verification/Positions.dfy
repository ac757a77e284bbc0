/** The position book: average-price entries, cumulative realized P&L over partial exits. */
module Positions {
  import opened Wrappers
  import opened RealMath
  import opened Models

  datatype Position = Position(
    symbol: string, side: Side, quantity: real, entryPrice: real, openedAt: Time, stop: real, target: real,
    score: real, traceId: string, action: GovernorAction,
    realizedPnl: real, exitedQty: real, exitNotional: real, maxFavorable: real, maxAdverse: real)

  datatype ClosedTrade = ClosedTrade(
    symbol: string, side: Side, quantity: real, entryPrice: real, exitPrice: real, openedAt: Time, closedAt: Time,
    pnl: real, reason: string, traceId: string, score: real, action: GovernorAction,
    maxFavorable: real, maxAdverse: real)

  function Opened(fill: Fill, sig: Signal): Position {
    Position(fill.symbol, fill.side, fill.quantity, fill.price, fill.ts, sig.stop, sig.target, sig.score, sig.traceId,
             sig.action, 0.0, 0.0, 0.0, 0.0, 0.0)
  }

  function Average(price: real, quantity: real, fillPrice: real, fillQuantity: real): real
    requires quantity + fillQuantity != 0.0
  {
    (price * quantity + fillPrice * fillQuantity) / (quantity + fillQuantity)
  }

  /** A further entry fill averages the price in; the side and the signal's levels stay those of the first. */
  function Added(p: Position, fill: Fill): Position
    requires p.quantity + fill.quantity != 0.0
  {
    p.(entryPrice := Average(p.entryPrice, p.quantity, fill.price, fill.quantity),
       quantity := p.quantity + fill.quantity)
  }

  function Pnl(side: Side, entry: real, exit: real, quantity: real): real { side.Sign() * (exit - entry) * quantity }

  function Value(quantity: real, price: real): real { quantity * price }

  /** The position after an exit fill, before it is decided whether it is flat. */
  function Reduced(p: Position, fill: Fill): Position {
    var quantity := Min(fill.quantity, p.quantity);
    p.(realizedPnl := p.realizedPnl + Pnl(p.side, p.entryPrice, fill.price, quantity),
       exitedQty := p.exitedQty + quantity,
       exitNotional := p.exitNotional + Value(quantity, fill.price),
       quantity := p.quantity - quantity)
  }

  function Close(p: Position, fill: Fill, reason: string): ClosedTrade {
    ClosedTrade(p.symbol, p.side, p.exitedQty, p.entryPrice, p.exitNotional / Max(p.exitedQty, TINY), p.openedAt,
                fill.ts,
                p.realizedPnl, reason, p.traceId, p.score, p.action, p.maxFavorable, p.maxAdverse)
  }

  type Holdings = map<string, Position>

  /** `on_entry_fill`; adding to nothing but the negative of itself divides by zero and raises. */
  function Enter(h: Holdings, fill: Fill, sig: Signal): (Holdings, bool) {
    if fill.symbol !in h then (h[fill.symbol := Opened(fill, sig)], false)
    else if h[fill.symbol].quantity + fill.quantity == 0.0 then (h, true)
    else (h[fill.symbol := Added(h[fill.symbol], fill)], false)
  }

  /** `on_exit_fill`: the book afterwards, and the trade if it closed one. */
  function Leave(h: Holdings, fill: Fill, reason: string): (Holdings, Option<ClosedTrade>) {
    if fill.symbol !in h then (h, None) else
    var p := Reduced(h[fill.symbol], fill);
    if p.quantity > DUST then (h[fill.symbol := p], None) else (h - {fill.symbol}, Some(Close(p, fill, reason)))
  }

  class PositionManager {
    var positions: Holdings
    var closed: seq<ClosedTrade>
    /** Adverse evaluations in a row, counted by the exit engine. */
    var adverse: map<string, nat>

    constructor ()
      ensures positions == map[] && closed == [] && adverse == map[]
    {
      positions, closed, adverse := map[], [], map[];
    }

    method OnEntryFill(fill: Fill, sig: Signal) returns (raised: bool)
      modifies this`positions
      ensures (positions, raised) == Enter(old(positions), fill, sig)
    {
      if fill.symbol in positions {
        var p := positions[fill.symbol];
        var total := p.quantity + fill.quantity;
        if total == 0.0 {
          return true;
        }
        p := p.(entryPrice := Average(p.entryPrice, p.quantity, fill.price, fill.quantity));
        p := p.(quantity := total);
        positions := positions[fill.symbol := p];
        return false;
      }
      positions := positions[fill.symbol := Opened(fill, sig)];
      raised := false;
    }

    method OnExitFill(fill: Fill, reason: string) returns (trade: Option<ClosedTrade>)
      modifies this
      ensures (positions, trade) == Leave(old(positions), fill, reason)
      ensures closed == match trade case None => old(closed) case Some(t) => old(closed) + [t]
      ensures adverse == if trade.Some? then old(adverse) - {fill.symbol} else old(adverse)
    {
      if fill.symbol !in positions {
        return None;
      }
      hide Pnl, Value;
      var p := positions[fill.symbol];
      var quantity := Min(fill.quantity, p.quantity);
      var pnl := Pnl(p.side, p.entryPrice, fill.price, quantity);
      p := p.(realizedPnl := p.realizedPnl + pnl);
      p := p.(exitedQty := p.exitedQty + quantity);
      p := p.(exitNotional := p.exitNotional + Value(quantity, fill.price));
      p := p.(quantity := p.quantity - quantity);
      assert p == Reduced(old(positions)[fill.symbol], fill);
      if p.quantity > DUST {
        positions := positions[fill.symbol := p];
        return None;
      }
      var closing := Close(p, fill, reason);
      closed := closed + [closing];
      positions := positions - {fill.symbol};
      adverse := adverse - {fill.symbol};
      trade := Some(closing);
    }
  }

  // ----- cash conservation

  /** One side of a round trip: shares in for cash out, or shares out for cash in. */
  datatype Leg = In(quantity: real, price: real) | Out(quantity: real, price: real)

  /** Shares held after the legs, counted without reference to any position. */
  function NetShares(legs: seq<Leg>): real {
    if legs == [] then 0.0 else
    var l := legs[|legs| - 1];
    NetShares(legs[..|legs| - 1]) + (if l.In? then l.quantity else -l.quantity)
  }

  function Traded(l: Leg): real { Value(l.quantity, l.price) }

  /** Cash received minus cash paid by someone who is long. */
  function NetCash(legs: seq<Leg>): real {
    if legs == [] then 0.0 else
    var l := legs[|legs| - 1];
    NetCash(legs[..|legs| - 1]) + (if l.In? then -Traded(l) else Traded(l))
  }

  function CashIn(legs: seq<Leg>): real {
    if legs == [] then 0.0 else
    var l := legs[|legs| - 1];
    CashIn(legs[..|legs| - 1]) + (if l.In? then 0.0 else Traded(l))
  }

  function SharesOut(legs: seq<Leg>): real {
    if legs == [] then 0.0 else
    var l := legs[|legs| - 1];
    SharesOut(legs[..|legs| - 1]) + (if l.In? then 0.0 else l.quantity)
  }

  /** An exit can only sell what is there. */
  function ExitLeg(legs: seq<Leg>, fill: Fill): Leg { Out(Min(fill.quantity, NetShares(legs)), fill.price) }

  lemma LegAppended(legs: seq<Leg>, l: Leg)
    ensures NetShares(legs + [l]) == NetShares(legs) + (if l.In? then l.quantity else -l.quantity)
    ensures NetCash(legs + [l]) == NetCash(legs) + (if l.In? then -Traded(l) else Traded(l))
    ensures CashIn(legs + [l]) == CashIn(legs) + (if l.In? then 0.0 else Traded(l))
    ensures SharesOut(legs + [l]) == SharesOut(legs) + (if l.In? then 0.0 else l.quantity)
  {
    var ls := legs + [l];
    assert ls[..|ls| - 1] == legs;
  }

  function Cost(p: Position): real { p.quantity * p.entryPrice }

  /** Realized P&L is the cash that came in, net of what went out, plus the cost of what is still held. */
  ghost predicate Conserves(p: Position, legs: seq<Leg>) {
    && p.quantity == NetShares(legs)
    && p.realizedPnl == p.side.Sign() * (NetCash(legs) + Cost(p))
    && p.exitedQty == SharesOut(legs) && p.exitNotional == CashIn(legs)
  }

  lemma OpenedConserves(fill: Fill, sig: Signal)
    ensures Conserves(Opened(fill, sig), [In(fill.quantity, fill.price)])
  {
    var l := In(fill.quantity, fill.price);
    assert [] + [l] == [l];
    LegAppended([], l);
  }

  lemma AverageCost(price: real, quantity: real, fillPrice: real, fillQuantity: real)
    requires quantity + fillQuantity != 0.0
    ensures (quantity + fillQuantity) * Average(price, quantity, fillPrice, fillQuantity)
            == quantity * price + fillQuantity * fillPrice
  {
  }

  /** Scaling in keeps the conservation law: averaging preserves total cost. */
  lemma AddedConserves(p: Position, fill: Fill, legs: seq<Leg>)
    requires Conserves(p, legs) && p.quantity + fill.quantity != 0.0
    ensures Conserves(Added(p, fill), legs + [In(fill.quantity, fill.price)])
  {
    LegAppended(legs, In(fill.quantity, fill.price));
    AverageCost(p.entryPrice, p.quantity, fill.price, fill.quantity);
    hide Average;
    assert Cost(Added(p, fill)) == Cost(p) + Traded(In(fill.quantity, fill.price));
  }

  lemma RealizedStep(sign: real, cash: real, quantity: real, price: real, x: real, entry: real)
    ensures sign * (cash + quantity * entry) + sign * (price - entry) * x
            == sign * ((cash + x * price) + (quantity - x) * entry)
  {
    var inner := (cash + quantity * entry) + (price - entry) * x;
    assert inner == (cash + x * price) + (quantity - x) * entry;
    assert sign * (price - entry) * x == sign * ((price - entry) * x);
    assert sign * (cash + quantity * entry) + sign * ((price - entry) * x) == sign * inner;
  }

  /** Scaling out keeps it too, whatever the exit price. */
  lemma ReducedConserves(p: Position, fill: Fill, legs: seq<Leg>)
    requires Conserves(p, legs)
    ensures Conserves(Reduced(p, fill), legs + [ExitLeg(legs, fill)])
  {
    var x := Min(fill.quantity, p.quantity);
    LegAppended(legs, ExitLeg(legs, fill));
    RealizedStep(p.side.Sign(), NetCash(legs), p.quantity, fill.price, x, p.entryPrice);
  }

  /**
   The P&L of a closed trade is the signed net cash of its round trip, up to the dust that was left when it
   was declared flat, and its exit price is the average price of the shares sold.
   */
  lemma ClosedTradeIsCash(p: Position, fill: Fill, reason: string, legs: seq<Leg>)
    requires Conserves(p, legs) && p.quantity > 0.0
    requires Reduced(p, fill).quantity <= DUST
    ensures var trade, all := Close(Reduced(p, fill), fill, reason), legs + [ExitLeg(legs, fill)];
            && trade.pnl == trade.side.Sign() * (NetCash(all) + NetShares(all) * trade.entryPrice)
            && 0.0 <= NetShares(all) <= DUST
            && trade.quantity == SharesOut(all)
            && (TINY <= trade.quantity ==> trade.exitPrice * trade.quantity == CashIn(all))
  {
    ReducedConserves(p, fill, legs);
    var r := Reduced(p, fill);
    hide Reduced;
    assert r.quantity >= 0.0 by { ReducedQuantity(p, fill); }
    assert r.entryPrice == p.entryPrice && r.side == p.side by { ReducedQuantity(p, fill); }
    QuotientTimes(r.exitNotional, Max(r.exitedQty, TINY));
  }

  /** What the entry settled and nothing later changes. */
  predicate SameTerms(p: Position, p': Position) {
    && p'.symbol == p.symbol && p'.side == p.side && p'.openedAt == p.openedAt && p'.stop == p.stop
    && p'.target == p.target && p'.score == p.score && p'.traceId == p.traceId && p'.action == p.action
  }

  /** A position has the side and time of its first fill and the levels, score, trace and action of the signal. */
  lemma TermsOfEntry(h: Holdings, fill: Fill, sig: Signal, x: string)
    requires !Enter(h, fill, sig).1
    ensures var h' := Enter(h, fill, sig).0;
            && (x in h' <==> x in h || x == fill.symbol) && (x in h ==> SameTerms(h[x], h'[x]))
            && (x in h && x != fill.symbol ==> h'[x] == h[x])
            && (x == fill.symbol && x !in h ==>
                  var p := h'[x];
                  && p.symbol == x && p.side == fill.side && p.openedAt == fill.ts && p.quantity == fill.quantity
                  && p.entryPrice == fill.price && p.stop == sig.stop && p.target == sig.target && p.score == sig.score
                  && p.traceId == sig.traceId && p.action == sig.action)
  {
    hide Average;
  }

  lemma TermsThroughExit(h: Holdings, fill: Fill, reason: string, x: string)
    ensures var h' := Leave(h, fill, reason).0;
            x in h' ==> x in h && SameTerms(h[x], h'[x]) && h'[x].entryPrice == h[x].entryPrice
                        && (x != fill.symbol ==> h'[x] == h[x])
  {
    hide Pnl, Value;
  }

  /** The trade is that of the position: its terms are those of the entry, and it ends with this fill. */
  lemma ClosedTradeTerms(p: Position, fill: Fill, reason: string)
    ensures var trade := Close(Reduced(p, fill), fill, reason);
            && trade.symbol == p.symbol && trade.side == p.side && trade.entryPrice == p.entryPrice
            && trade.openedAt == p.openedAt && trade.closedAt == fill.ts && trade.reason == reason
            && trade.traceId == p.traceId && trade.score == p.score && trade.action == p.action
            && trade.maxFavorable == p.maxFavorable && trade.maxAdverse == p.maxAdverse
  {
    hide Pnl, Value;
  }

  lemma ReducedQuantity(p: Position, fill: Fill)
    requires p.quantity > 0.0
    ensures Reduced(p, fill).quantity >= 0.0
    ensures Reduced(p, fill).entryPrice == p.entryPrice && Reduced(p, fill).side == p.side
  {
  }

  lemma QuotientTimes(n: real, d: real)
    requires d > 0.0
    ensures n / d * d == n
  {
  }
}
