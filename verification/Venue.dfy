/** The simulated venue: acknowledgement, activation and cancel latencies, queue position, partial fills. */
module Venue {
  import opened Wrappers
  import opened RealMath
  import opened Models
  import Orders

  datatype Config = Config(latency: Time, extraLatency: Time, ackLatency: Time, cancelLatency: Time,
                           queueFactor: real, requireThrough: bool, takeFraction: real, minShares: real)

  datatype Tif = Day | Ioc | Fok

  datatype Working = Working(req: OrderRequest, submittedAt: Time, ackAt: Time, activateAt: Time, limit: Option<real>,
                             queueAhead: real, filled: real, acked: bool, cancelAt: Option<Time>, tif: Tif,
                             awaiting: bool)

  datatype VenueEvent = Acked(coid: string) | Fills(coid: string,
                                                    fill: Fill) | CancelAcked(coid: string) | Rejects(coid: string)

  function Remaining(w: Working): real { Orders.Left(w.req.quantity, w.filled) }

  predicate Marketable(req: OrderRequest, q: Option<Quote>) {
    if req.orderType.Market? || req.limitPrice.None? || q.None? then req.orderType.Market?
    else if req.side.Buy? then req.limitPrice.value >= q.value.ask
    else req.limitPrice.value <= q.value.bid
  }

  /** Resting orders join behind the displayed size on their own side. */
  function JoinBehind(cfg: Config, side: Side, q: Quote): real {
    (if side.Buy? then q.bidSize else q.askSize) * cfg.queueFactor
  }

  /** The share of the displayed size on the other side that one order may take. */
  function TakeLimit(cfg: Config, side: Side, q: Quote): real {
    (if side.Buy? then q.askSize else q.bidSize) * cfg.takeFraction
  }

  function Submitted(cfg: Config, req: OrderRequest, tif: Tif, q: Option<Quote>, now: Time): Working {
    var aggressive := req.orderType.Market? || Marketable(req, q) || tif.Ioc? || tif.Fok?;
    var ahead := if aggressive || q.None? then 0.0 else JoinBehind(cfg, req.side, q.value);
    Working(req, now, now + cfg.ackLatency, now + (cfg.latency + cfg.extraLatency), req.limitPrice,
            ahead, 0.0, false, None, tif, aggressive)
  }

  /** What one order does with one input: the order afterwards, if it is still working, and its events. */
  datatype Reaction = Reaction(order: Option<Working>, events: seq<VenueEvent>)

  function Filled(w: Working, quantity: real): Working { w.(filled := w.filled + quantity) }

  function FillOf(w: Working, quantity: real, price: real, ts: Time): VenueEvent {
    Fills(w.req.coid, Fill(w.req.symbol, w.req.side, quantity, price, ts, w.req.coid, w.req.traceId,
                           Remaining(Filled(w, quantity)) > DUST))
  }

  function TouchPrice(w: Working, q: Quote): real { if w.req.side.Buy? then q.ask else q.bid }

  predicate BeyondLimit(w: Working, price: real) {
    w.limit.Some? && if w.req.side.Buy? then price > w.limit.value else price < w.limit.value
  }

  /** How much of the displayed size the order may take at this quote. */
  function Takes(cfg: Config, w: Working, q: Quote): real {
    if BeyondLimit(w, TouchPrice(w, q)) then 0.0 else TakeLimit(cfg, w.req.side, q)
  }

  function Aggress(cfg: Config, w: Working, q: Quote): Reaction {
    var price, take := TouchPrice(w, q), Takes(cfg, w, q);
    if w.tif.Fok? then
      if take >= Remaining(w) then Reaction(Some(Filled(w, Remaining(w))), [FillOf(w, Remaining(w), price, q.ts)])
      else Reaction(None, [CancelAcked(w.req.coid)])
    else
      var quantity := Min(take, Remaining(w));
      var trades := quantity >= Max(cfg.minShares, DUST);
      var w' := if trades then Filled(w, quantity) else w;
      var fills := if trades then [FillOf(w, quantity, price, q.ts)] else [];
      if w.tif.Ioc? then Reaction(None, if Remaining(w') > DUST then fills + [CancelAcked(w.req.coid)] else fills)
      else Reaction(if Remaining(w') <= DUST then None else Some(w'), fills)
  }

  function OnQuoteOne(cfg: Config, w: Working, q: Quote, now: Time): Reaction {
    if w.req.symbol != q.symbol || !w.awaiting || now < w.activateAt || q.ts < w.activateAt
    then Reaction(Some(w), [])
    else Aggress(cfg, w, q)
  }

  /** The order sits in the book and can see this trade. */
  predicate Exposed(w: Working, t: Trade, now: Time) {
    w.req.symbol == t.symbol && !w.awaiting && w.limit.Some? && now >= w.activateAt
  }

  predicate Through(w: Working, t: Trade)
    requires w.limit.Some?
  {
    if w.req.side.Buy? then t.price < w.limit.value else t.price > w.limit.value
  }

  predicate AtPrice(w: Working, t: Trade)
    requires w.limit.Some?
  {
    !Through(w, t) && Abs(t.price - w.limit.value) < DUST
  }

  /** `accepted` is the outcome of the random draw against the fill probability, if one is made. */
  function OnTradeOne(cfg: Config, w: Working, t: Trade, now: Time, accepted: bool): Reaction {
    if !Exposed(w, t, now) then Reaction(Some(w), [])
    else if Through(w, t) then
      if !accepted then Reaction(Some(w), [])
      else Reaction(None, [FillOf(w, Remaining(w), w.limit.value, t.ts)])
    else if AtPrice(w, t) then
      if w.queueAhead > 0.0 then Reaction(Some(w.(queueAhead := Max(0.0, w.queueAhead - t.size))), [])
      else if cfg.requireThrough || !accepted then Reaction(Some(w), [])
      else
        var quantity := Min(t.size, Remaining(w));
        if quantity >= cfg.minShares then
          var w' := Filled(w, quantity);
          Reaction(if Remaining(w') <= DUST then None else Some(w'), [FillOf(w, quantity, w.limit.value, t.ts)])
        else Reaction(Some(w), [])
    else Reaction(Some(w), [])
  }

  function PollOne(w: Working, now: Time): Reaction {
    var acks := !w.acked && now >= w.ackAt;
    var cancels := w.cancelAt.Some? && now >= w.cancelAt.value;
    Reaction(if cancels then None else Some(if acks then w.(acked := true) else w),
             (if acks then [Acked(w.req.coid)] else []) + (if cancels then [CancelAcked(w.req.coid)] else []))
  }

  /** `accepted` holds the ids whose random draw, if made during this event, lets them fill. */
  datatype Input = QuoteIn(quote: Quote) | TradeIn(trade: Trade, accepted: set<string>) | PollIn

  function React(cfg: Config, w: Working, input: Input, now: Time): Reaction {
    match input
    case QuoteIn(q) => OnQuoteOne(cfg, w, q, now)
    case TradeIn(t, accepted) => OnTradeOne(cfg, w, t, now, w.req.coid in accepted)
    case PollIn => PollOne(w, now)
  }

  type WorkingMap = map<string, Working>

  function Keep(working: WorkingMap, coid: string, order: Option<Working>): WorkingMap {
    match order case Some(w) => working[coid := w] case None => working - {coid}
  }

  /** Visits the given ids in order: what is left working, and all events in the order they are emitted. */
  function Visit(cfg: Config, ids: seq<string>, working: WorkingMap, input: Input, now: Time): (WorkingMap,
                                                                                                seq<VenueEvent>)
    decreases |ids|
  {
    if ids == [] then (working, [])
    else if ids[0] !in working then Visit(cfg, ids[1..], working, input, now)
    else
      var r := React(cfg, working[ids[0]], input, now);
      var (working', events) := Visit(cfg, ids[1..], Keep(working, ids[0], r.order), input, now);
      (working', r.events + events)
  }

  function Cancelled(cfg: Config, working: WorkingMap, coid: string, now: Time): WorkingMap {
    if coid in working && working[coid].cancelAt.None?
    then working[coid := working[coid].(cancelAt := Some(now + cfg.cancelLatency))] else working
  }

  /** Dictionary order after an assignment: a key that is present keeps its place. */
  function Without(ids: seq<string>, coid: string): (r: seq<string>)
    ensures forall c :: c in r <==> c in ids && c != coid
  {
    if ids == [] then [] else if ids[0] == coid then Without(ids[1..], coid) else [ids[0]] + Without(ids[1..], coid)
  }

  lemma DropAfterWrite(working: WorkingMap, coid: string, w: Working)
    ensures working[coid := w] - {coid} == working - {coid}
  {
  }

  class PaperVenue {
    const cfg: Config
    /** Insertion order; ids that were popped stay listed and are skipped. */
    var ids: seq<string>
    var working: WorkingMap
    var lastQuote: map<string, Quote>

    ghost predicate Valid()
      reads this
    {
      forall c :: c in working ==> c in ids && working[c].req.coid == c
    }

    constructor (cfg: Config)
      ensures Valid() && this.cfg == cfg && ids == [] && working == map[] && lastQuote == map[]
    {
      this.cfg := cfg;
      ids, working, lastQuote := [], map[], map[];
    }

    method Submit(req: OrderRequest, tif: Tif, now: Time)
      requires Valid()
      modifies this`ids, this`working
      ensures Valid()
      ensures ids == if req.coid in old(working) then old(ids) else Without(old(ids), req.coid) + [req.coid]
      ensures working == old(working)[req.coid := Submitted(cfg, req, tif, old(LastQuote(req.symbol)), now)]
    {
      hide JoinBehind;
      var q := LastQuote(req.symbol);
      var w := Working(req, now, now + cfg.ackLatency, now + (cfg.latency + cfg.extraLatency), req.limitPrice,
                       0.0, 0.0, false, None, tif, false);
      if req.orderType.Market? || Marketable(req, q) || tif.Ioc? || tif.Fok? {
        w := w.(awaiting := true);
      } else if q.Some? {
        w := w.(queueAhead := JoinBehind(cfg, req.side, q.value));
      }
      if req.coid !in working {
        ids := Without(ids, req.coid) + [req.coid];
      }
      working := working[req.coid := w];
    }

    function LastQuote(symbol: string): Option<Quote>
      reads this`lastQuote
    {
      if symbol in lastQuote then Some(lastQuote[symbol]) else None
    }

    method Cancel(coid: string, now: Time)
      requires Valid()
      modifies this`working
      ensures Valid() && working == Cancelled(cfg, old(working), coid, now)
    {
      if coid in working {
        var w := working[coid];
        if w.cancelAt.None? {
          working := working[coid := w.(cancelAt := Some(now + cfg.cancelLatency))];
        }
      }
    }

    method OnQuote(q: Quote, now: Time) returns (out: seq<VenueEvent>)
      requires Valid()
      modifies this`working, this`lastQuote
      ensures Valid() && lastQuote == old(lastQuote)[q.symbol := q]
      ensures (working, out) == Visit(cfg, ids, old(working), QuoteIn(q), now)
    {
      lastQuote := lastQuote[q.symbol := q];
      out := [];
      ghost var before := working;
      assert ids[0..] == ids;
      for i := 0 to |ids|
        invariant Valid() && lastQuote == old(lastQuote)[q.symbol := q]
        invariant Progress(before, i, QuoteIn(q), now, out)
      {
        VisitNext(cfg, ids, i, working, QuoteIn(q), now);
        ghost var was := working;
        if ids[i] in working {
          var w := working[ids[i]];
          var events := [];
          if w.req.symbol == q.symbol && w.awaiting && !(now < w.activateAt || q.ts < w.activateAt) {
            events := AggressInPlace(ids[i], q);
          } else {
            assert working[ids[i] := w] == working;
          }
          Emit(before, was, i, QuoteIn(q), now, out, events);
          out := out + events;
        }
      }
      VisitDone(cfg, ids, working, QuoteIn(q), now);
      assert out + [] == out;
    }

    /** The loop has emitted `out` and still has ids[i..] to visit. */
    ghost predicate Progress(before: WorkingMap, i: nat, input: Input, now: Time, out: seq<VenueEvent>)
      reads this
    {
      && i <= |ids|
      && Visit(cfg, ids, before, input, now).0 == Visit(cfg, ids[i..], working, input, now).0
      && Visit(cfg, ids, before, input, now).1 == out + Visit(cfg, ids[i..], working, input, now).1
    }

    lemma Emit(before: WorkingMap, was: WorkingMap, i: nat, input: Input, now: Time, out: seq<VenueEvent>,
               events: seq<VenueEvent>)
      requires i < |ids|
      requires Visit(cfg, ids, before, input, now).0 == Visit(cfg, ids[i..], was, input, now).0
      requires Visit(cfg, ids, before, input, now).1 == out + Visit(cfg, ids[i..], was, input, now).1
      requires Visit(cfg, ids[i..], was, input, now)
               == (Visit(cfg, ids[i + 1..], working, input, now).0,
                   events + Visit(cfg, ids[i + 1..], working, input, now).1)
      ensures Progress(before, i + 1, input, now, out + events)
    {
      var rest := Visit(cfg, ids[i + 1..], working, input, now).1;
      assert out + (events + rest) == (out + events) + rest;
    }

    /** `_aggress`: fills at the touch, as much as displayed size and the limit allow. */
    method AggressInPlace(coid: string, q: Quote) returns (out: seq<VenueEvent>)
      requires Valid() && coid in working
      modifies this`working
      ensures Valid()
      ensures var r := Aggress(cfg, old(working)[coid], q);
              working == Keep(old(working), coid, r.order) && out == r.events
    {
      out := [];
      var w := working[coid];
      var price := if w.req.side.Buy? then q.ask else q.bid;
      var take := TakeLimit(cfg, w.req.side, q);
      hide TakeLimit;
      if BeyondLimit(w, price) {
        take := 0.0;
      }
      if w.tif.Fok? {
        if take >= Remaining(w) {
          out := [FillOf(w, Remaining(w), price, q.ts)];
          working := working[coid := Filled(w, Remaining(w))];
        } else {
          out := [CancelAcked(coid)];
          working := working - {coid};
        }
        return;
      }
      var quantity := Min(take, Remaining(w));
      if quantity >= Max(cfg.minShares, DUST) {
        out := [FillOf(w, quantity, price, q.ts)];
        w := Filled(w, quantity);
      }
      DropAfterWrite(working, coid, w);
      working := working[coid := w];
      if w.tif.Ioc? {
        if Remaining(w) > DUST {
          out := out + [CancelAcked(coid)];
        }
        working := working - {coid};
      } else if Remaining(w) <= DUST {
        working := working - {coid};
      }
    }

    method OnTrade(t: Trade, accepted: set<string>, now: Time) returns (out: seq<VenueEvent>)
      requires Valid()
      modifies this`working
      ensures Valid()
      ensures (working, out) == Visit(cfg, ids, old(working), TradeIn(t, accepted), now)
    {
      out := [];
      ghost var before := working;
      assert ids[0..] == ids;
      for i := 0 to |ids|
        invariant Valid()
        invariant Progress(before, i, TradeIn(t, accepted), now, out)
      {
        VisitNext(cfg, ids, i, working, TradeIn(t, accepted), now);
        ghost var was := working;
        if ids[i] in working {
          var events := TradeInPlace(ids[i], t, ids[i] in accepted, now);
          Emit(before, was, i, TradeIn(t, accepted), now, out, events);
          out := out + events;
        }
      }
      VisitDone(cfg, ids, working, TradeIn(t, accepted), now);
      assert out + [] == out;
    }

    /** The body of the loop over resting orders: trade-through, queue consumption, or a fill at the limit. */
    method TradeInPlace(coid: string, t: Trade, accepted: bool, now: Time) returns (out: seq<VenueEvent>)
      requires Valid() && coid in working
      modifies this`working
      ensures Valid()
      ensures var r := OnTradeOne(cfg, old(working)[coid], t, now, accepted);
              working == Keep(old(working), coid, r.order) && out == r.events
    {
      out := [];
      var w := working[coid];
      assert working[coid := w] == working;
      if w.req.symbol != t.symbol || w.awaiting || w.limit.None? || now < w.activateAt {
        return;
      }
      var limit := w.limit.value;
      var atPrice := Abs(t.price - limit) < DUST;
      var through := if w.req.side.Buy? then t.price < limit else t.price > limit;
      if through {
        if accepted {
          out := [FillOf(w, Remaining(w), limit, t.ts)];
          working := working - {coid};
        }
      } else if atPrice {
        if w.queueAhead > 0.0 {
          working := working[coid := w.(queueAhead := Max(0.0, w.queueAhead - t.size))];
        } else if !cfg.requireThrough {
          if accepted {
            var quantity := Min(t.size, Remaining(w));
            if quantity >= cfg.minShares {
              out := [FillOf(w, quantity, limit, t.ts)];
              w := Filled(w, quantity);
              working := working[coid := w];
              if Remaining(w) <= DUST {
                working := working - {coid};
              }
            }
          }
        }
      }
    }

    method PollInPlace(coid: string, now: Time) returns (out: seq<VenueEvent>)
      requires Valid() && coid in working
      modifies this`working
      ensures Valid()
      ensures var r := PollOne(old(working)[coid], now); working == Keep(old(working), coid, r.order) && out == r.events
    {
      out := [];
      var w := working[coid];
      if !w.acked && now >= w.ackAt {
        w := w.(acked := true);
        out := out + [Acked(coid)];
      }
      DropAfterWrite(working, coid, w);
      working := working[coid := w];
      if w.cancelAt.Some? && now >= w.cancelAt.value {
        out := out + [CancelAcked(coid)];
        working := working - {coid};
      }
    }

    method Poll(now: Time) returns (out: seq<VenueEvent>)
      requires Valid()
      modifies this`working
      ensures Valid()
      ensures (working, out) == Visit(cfg, ids, old(working), PollIn, now)
    {
      out := [];
      ghost var before := working;
      assert ids[0..] == ids;
      for i := 0 to |ids|
        invariant Valid()
        invariant Progress(before, i, PollIn, now, out)
      {
        VisitNext(cfg, ids, i, working, PollIn, now);
        ghost var was := working;
        if ids[i] in working {
          var events := PollInPlace(ids[i], now);
          Emit(before, was, i, PollIn, now, out, events);
          out := out + events;
        }
      }
      VisitDone(cfg, ids, working, PollIn, now);
      assert out + [] == out;
    }
  }

  lemma VisitNext(cfg: Config, ids: seq<string>, i: nat, working: WorkingMap, input: Input, now: Time)
    requires i < |ids|
    ensures Visit(cfg, ids[i..], working, input, now) ==
            if ids[i] !in working then Visit(cfg, ids[i + 1..], working, input, now)
            else var r := React(cfg, working[ids[i]], input, now);
                 var rest := Visit(cfg, ids[i + 1..], Keep(working, ids[i], r.order), input, now);
                 (rest.0, r.events + rest.1)
  {
    assert ids[i..][1..] == ids[i + 1..];
    hide React;
  }

  lemma VisitDone(cfg: Config, ids: seq<string>, working: WorkingMap, input: Input, now: Time)
    ensures Visit(cfg, ids[|ids|..], working, input, now) == (working, [])
  {
  }
}
