/** Booking fills: the live book, its event log and the cash behind both, over runs with crashes. */
module Booking {
  import opened Wrappers
  import opened RealMath
  import opened Models
  import opened Positions
  import opened PositionLog

  /** What the engine changes when it books a fill. */
  datatype Desk = Desk(positions: Holdings, closed: seq<ClosedTrade>, rows: seq<Row>)

  /** An entry fill is booked only while the signal behind its order is still pending. */
  datatype Event = EntryFill(fill: Fill, pending: Option<Signal>) | ExitFill(fill: Fill, reason: string) | Crash

  function Book(d: Desk, e: Event): (Desk, bool) {
    match e
    case EntryFill(fill, None) => (d, false)
    case EntryFill(fill, Some(sig)) =>
      var (positions, raised) := Enter(d.positions, fill, sig);
      if raised then (d, true) else
      (Desk(positions, d.closed, d.rows + [RowOf(true, fill, Some(Levels(sig.stop, sig.target, sig.action)))]), false)
    case ExitFill(fill, reason) =>
      var (positions, trade) := Leave(d.positions, fill, reason);
      (Desk(positions, match trade case None => d.closed case Some(t) => d.closed + [t],
            d.rows + [RowOf(false, fill, None)]), false)
    case Crash => (Desk(RebuiltBook(d.rows), [], d.rows), false)
  }

  /** Fills have a size, orders carry their signal's trace, and signals carry a stop and a target. */
  predicate Sensible(e: Event) {
    match e
    case EntryFill(fill, None) => true
    case EntryFill(fill, Some(sig)) =>
      TINY <= fill.quantity && fill.traceId == sig.traceId && sig.stop != 0.0 && sig.target != 0.0
    case ExitFill(fill, _) => 0.0 < fill.quantity
    case Crash => true
  }

  // ----- the log mirrors the book

  ghost predicate Recoverable(p: Position) { TINY <= p.quantity && p.stop != 0.0 && p.target != 0.0 }

  ghost predicate LogMirrors(d: Desk) {
    && Replay(d.rows).Keys == d.positions.Keys
    && forall s :: s in d.positions ==> Mirrors(s, d.positions[s], Replay(d.rows)[s]) && Recoverable(d.positions[s])
  }

  lemma ReplaySnoc(rows: seq<Row>, row: Row)
    ensures Replay(rows + [row]) == Replayed(Replay(rows), row)
  {
    assert (rows + [row])[..|rows|] == rows;
  }

  lemma EntryMirrors(d: Desk, fill: Fill, sig: Signal)
    requires LogMirrors(d) && Sensible(EntryFill(fill, Some(sig)))
    ensures var (d', raised) := Book(d, EntryFill(fill, Some(sig))); !raised && LogMirrors(d')
  {
    var levels := Some(Levels(sig.stop, sig.target, sig.action));
    ReplaySnoc(d.rows, RowOf(true, fill, levels));
    hide Mirrors, Average, AddTo, Added, Opened, Replay;
    if fill.symbol in d.positions {
      AddedMirrors(d.positions[fill.symbol], fill, Replay(d.rows)[fill.symbol]);
      AddedLevels(d.positions[fill.symbol], fill);
    } else {
      OpenedLevels(fill, sig);
      OpenedMirrors(fill, sig, AddTo(Lot(fill.side, 0.0, 0.0, fill.ts, fill.traceId, levels), fill.quantity,
                                     fill.price));
    }
  }

  lemma AddedLevels(p: Position, fill: Fill)
    requires p.quantity + fill.quantity != 0.0
    ensures Added(p, fill).stop == p.stop && Added(p, fill).target == p.target
    ensures Added(p, fill).quantity == p.quantity + fill.quantity
  {
  }

  lemma OpenedLevels(fill: Fill, sig: Signal)
    ensures var p := Opened(fill, sig); p.stop == sig.stop && p.target == sig.target && p.quantity == fill.quantity
  {
  }

  lemma ExitMirrors(d: Desk, fill: Fill, reason: string)
    requires LogMirrors(d) && 0.0 < fill.quantity
    ensures LogMirrors(Book(d, ExitFill(fill, reason)).0)
  {
    ReplaySnoc(d.rows, RowOf(false, fill, None));
    if fill.symbol in d.positions {
      ReducedMirrors(d.positions[fill.symbol], fill, Replay(d.rows)[fill.symbol]);
      ReducedLevels(d.positions[fill.symbol], fill);
    }
    hide Replay, Mirrors, Reduced, TakeFrom, Close;
  }

  lemma ReducedLevels(p: Position, fill: Fill)
    ensures Reduced(p, fill).stop == p.stop && Reduced(p, fill).target == p.target
  {
  }

  lemma CrashMirrors(d: Desk)
    requires LogMirrors(d)
    ensures LogMirrors(Book(d, Crash).0)
    ensures forall s :: s in d.positions ==>
              s in RebuiltBook(d.rows) && ViewOf(RebuiltBook(d.rows)[s]) == ViewOf(d.positions[s])
  {
    hide Replay, Rebuilt, Mirrors, ViewOf;
    forall s | s in d.positions
      ensures ViewOf(Rebuilt(s, Replay(d.rows)[s])) == ViewOf(d.positions[s])
      ensures Mirrors(s, Rebuilt(s, Replay(d.rows)[s]), Replay(d.rows)[s]) && Recoverable(Rebuilt(s, Replay(d.rows)[s]))
    {
      RebuiltMirrors(s, d.positions[s], Replay(d.rows)[s]);
    }
  }

  lemma RebuiltMirrors(s: string, p: Position, l: Lot)
    requires Mirrors(s, p, l) && Recoverable(p)
    ensures ViewOf(Rebuilt(s, l)) == ViewOf(p) && Mirrors(s, Rebuilt(s, l), l) && Recoverable(Rebuilt(s, l))
  {
    RebuildExact(s, p, l);
    hide Rebuilt;
  }

  lemma BookMirrors(d: Desk, e: Event)
    requires LogMirrors(d) && Sensible(e)
    ensures var (d', raised) := Book(d, e); !raised && LogMirrors(d')
  {
    hide LogMirrors, Enter, Leave, RebuiltBook;
    match e
    case EntryFill(fill, None) =>
    case EntryFill(fill, Some(sig)) => EntryMirrors(d, fill, sig);
    case ExitFill(fill, reason) => ExitMirrors(d, fill, reason);
    case Crash => CrashMirrors(d);
  }

  function Run(d: Desk, events: seq<Event>): Desk
    decreases |events|
  {
    if events == [] then d else Run(Book(d, events[0]).0, events[1..])
  }

  const Empty := Desk(map[], [], [])

  lemma {:induction false} RunMirrors(d: Desk, events: seq<Event>)
    requires LogMirrors(d) && forall e :: e in events ==> Sensible(e)
    ensures LogMirrors(Run(d, events))
    decreases |events|
  {
    hide LogMirrors, Book;
    if events != [] {
      BookMirrors(d, events[0]);
      RunMirrors(Book(d, events[0]).0, events[1..]);
    }
  }

  /**
   After any bookings, with any number of crashes among them, rebuilding the log gives back the live book:
   the same symbols, each with the same side, quantity, average price, opening time, levels, trace and action.
   Exits larger than the position, exits of nothing and re-entries after partial exits included.
   */
  lemma RebuildEqualsLive(events: seq<Event>, s: string)
    requires forall e :: e in events ==> Sensible(e)
    ensures var d := Run(Empty, events);
            && (s in RebuiltBook(d.rows) <==> s in d.positions)
            && (s in d.positions ==> ViewOf(RebuiltBook(d.rows)[s]) == ViewOf(d.positions[s]))
  {
    assert LogMirrors(Empty);
    RunMirrors(Empty, events);
    hide Run;
    CrashMirrors(Run(Empty, events));
  }

  // ----- cash conservation over runs

  /** The legs of the round trip in progress for each open symbol, and of each closed trade. */
  datatype Cash = Cash(open: map<string, seq<Leg>>, closed: seq<seq<Leg>>)

  function Legs(c: Cash, s: string): seq<Leg> { if s in c.open then c.open[s] else [] }

  /** The same fills, kept only as shares and cash. */
  function Settle(c: Cash, e: Event): Cash {
    match e
    case EntryFill(fill, None) => c
    case EntryFill(fill, Some(_)) => c.(open := c.open[fill.symbol := Legs(c,
                                                                           fill.symbol) + [In(fill.quantity,
                                                                                              fill.price)]])
    case ExitFill(fill, _) =>
      if fill.symbol !in c.open then c else
      var legs := c.open[fill.symbol] + [ExitLeg(c.open[fill.symbol], fill)];
      if NetShares(legs) > DUST then c.(open := c.open[fill.symbol := legs])
      else Cash(c.open - {fill.symbol}, c.closed + [legs])
    case Crash => c
  }

  /** Signed cash of a round trip, valuing the dust it left behind at the entry price. */
  function CashOf(t: ClosedTrade, legs: seq<Leg>): real {
    t.side.Sign() * (NetCash(legs) + NetShares(legs) * t.entryPrice)
  }

  ghost predicate TradeIsCash(t: ClosedTrade, legs: seq<Leg>) {
    && t.pnl == CashOf(t, legs)
    && 0.0 <= NetShares(legs) <= DUST
  }

  ghost predicate CashSound(d: Desk, c: Cash) {
    && c.open.Keys == d.positions.Keys && |c.closed| == |d.closed|
    && (forall s :: s in d.positions ==> Conserves(d.positions[s], c.open[s]) && 0.0 < d.positions[s].quantity)
    && (forall i :: 0 <= i < |d.closed| ==> TradeIsCash(d.closed[i], c.closed[i]))
  }

  lemma SettleSound(d: Desk, c: Cash, e: Event)
    requires CashSound(d, c) && Sensible(e) && !e.Crash?
    ensures CashSound(Book(d, e).0, Settle(c, e))
  {
    match e
    case EntryFill(fill, None) =>
    case EntryFill(fill, Some(sig)) => EntrySettles(d, c, fill, sig);
    case ExitFill(fill, reason) => ExitSettles(d, c, fill, reason);
    hide Book, Settle, CashSound;
  }

  lemma EntrySettles(d: Desk, c: Cash, fill: Fill, sig: Signal)
    requires CashSound(d, c) && 0.0 < fill.quantity
    ensures CashSound(Book(d, EntryFill(fill, Some(sig))).0, Settle(c, EntryFill(fill, Some(sig))))
  {
    hide Conserves, TradeIsCash, Average;
    if fill.symbol in d.positions {
      AddedConserves(d.positions[fill.symbol], fill, c.open[fill.symbol]);
    } else {
      OpenedConserves(fill, sig);
      assert [] + [In(fill.quantity, fill.price)] == [In(fill.quantity, fill.price)];
    }
  }

  lemma ExitSettles(d: Desk, c: Cash, fill: Fill, reason: string)
    requires CashSound(d, c)
    ensures CashSound(Book(d, ExitFill(fill, reason)).0, Settle(c, ExitFill(fill, reason)))
  {
    hide Conserves, TradeIsCash, NetShares, NetCash, Reduced, Close;
    if fill.symbol in d.positions {
      ExitLegs(d.positions[fill.symbol], fill, reason, c.open[fill.symbol]);
    }
  }

  lemma ExitLegs(p: Position, fill: Fill, reason: string, legs: seq<Leg>)
    requires Conserves(p, legs) && 0.0 < p.quantity
    ensures var all := legs + [ExitLeg(legs, fill)];
            && Conserves(Reduced(p, fill), all)
            && NetShares(all) == Reduced(p, fill).quantity
            && (Reduced(p, fill).quantity <= DUST ==> TradeIsCash(Close(Reduced(p, fill), fill, reason), all))
  {
    ReducedConserves(p, fill, legs);
    if Reduced(p, fill).quantity <= DUST {
      ClosedTradeIsCash(p, fill, reason, legs);
    }
    hide Reduced, Close, NetCash;
  }

  function SettleAll(c: Cash, events: seq<Event>): Cash
    decreases |events|
  {
    if events == [] then c else SettleAll(Settle(c, events[0]), events[1..])
  }

  lemma {:induction false} RunSettles(d: Desk, c: Cash, events: seq<Event>)
    requires CashSound(d, c) && forall e :: e in events ==> Sensible(e) && !e.Crash?
    ensures CashSound(Run(d, events), SettleAll(c, events))
    decreases |events|
  {
    hide CashSound, Book, Settle;
    if events != [] {
      SettleSound(d, c, events[0]);
      RunSettles(Book(d, events[0]).0, Settle(c, events[0]), events[1..]);
    }
  }

  function PnlTotal(trades: seq<ClosedTrade>): real {
    if trades == [] then 0.0 else PnlTotal(trades[..|trades| - 1]) + trades[|trades| - 1].pnl
  }

  function CashTotal(trades: seq<ClosedTrade>, legs: seq<seq<Leg>>): real
    requires |trades| == |legs|
  {
    if trades == [] then 0.0 else
    var n := |trades| - 1;
    CashTotal(trades[..n], legs[..n]) + CashOf(trades[n], legs[n])
  }

  lemma {:induction false} TotalsAgree(trades: seq<ClosedTrade>, legs: seq<seq<Leg>>)
    requires |trades| == |legs| && forall i :: 0 <= i < |trades| ==> TradeIsCash(trades[i], legs[i])
    ensures PnlTotal(trades) == CashTotal(trades, legs)
  {
    hide CashOf, NetShares;
    if trades != [] {
      var n := |trades| - 1;
      TotalsAgree(trades[..n], legs[..n]);
      assert TradeIsCash(trades[n], legs[n]);
    }
  }

  /**
   Between two restarts, for any interleaving of scale-ins and scale-outs: what a position has realized is the
   signed cash it moved plus the cost of what it still holds, and the P&L of all closed trades together is the
   signed cash of their round trips, up to at most DUST shares each.
   */
  lemma CashConserved(events: seq<Event>, s: string)
    requires forall e :: e in events ==> Sensible(e) && !e.Crash?
    ensures var d, c := Run(Empty, events), SettleAll(Cash(map[], []), events);
            && (s in d.positions ==>
                  && s in c.open && d.positions[s].quantity == NetShares(c.open[s])
                  && d.positions[s].realizedPnl
                     == d.positions[s].side.Sign() * (NetCash(c.open[s]) + Cost(d.positions[s])))
            && |d.closed| == |c.closed| && PnlTotal(d.closed) == CashTotal(d.closed, c.closed)
            && (forall i :: 0 <= i < |c.closed| ==> 0.0 <= NetShares(c.closed[i]) <= DUST)
  {
    hide Run, SettleAll, NetCash, NetShares, CashOf, PnlTotal, CashTotal, Cost;
    assert CashSound(Empty, Cash(map[], []));
    RunSettles(Empty, Cash(map[], []), events);
    hide CashSound;
    CashSoundAt(Run(Empty, events), SettleAll(Cash(map[], []), events), s);
  }

  lemma CashSoundAt(d: Desk, c: Cash, s: string)
    requires CashSound(d, c)
    ensures s in d.positions ==> s in c.open && Conserves(d.positions[s], c.open[s])
    ensures |d.closed| == |c.closed| && PnlTotal(d.closed) == CashTotal(d.closed, c.closed)
    ensures forall i :: 0 <= i < |c.closed| ==> 0.0 <= NetShares(c.closed[i]) <= DUST
  {
    hide Conserves, NetCash, NetShares, CashOf, PnlTotal, CashTotal;
    TotalsAgree(d.closed, c.closed);
  }
}
