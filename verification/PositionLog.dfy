/** The position event log, and the book it rebuilds after a crash. */
module PositionLog {
  import opened Wrappers
  import opened RealMath
  import opened Models
  import opened Positions

  /** The fields that only entry rows carry. */
  datatype Levels = Levels(stop: real, target: real, action: GovernorAction)

  datatype Row = Row(entry: bool, symbol: string, side: Side, quantity: real, price: real, ts: Time, traceId: string,
                     levels: Option<Levels>)

  function RowOf(entry: bool, fill: Fill, levels: Option<Levels>): Row {
    Row(entry, fill.symbol, fill.side, fill.quantity, fill.price, fill.ts, fill.traceId, levels)
  }

  /** What replay keeps per symbol: quantity and total cost. */
  datatype Lot = Lot(side: Side, quantity: real, cost: real, ts: Time, traceId: string, levels: Option<Levels>)

  type Lots = map<string, Lot>

  function UnitCost(cost: real, quantity: real): real { cost / Max(quantity, TINY) }

  function AddTo(l: Lot, quantity: real, price: real): Lot {
    l.(quantity := l.quantity + quantity, cost := l.cost + quantity * price)
  }

  function TakeFrom(l: Lot, quantity: real): Lot {
    l.(quantity := l.quantity - quantity, cost := l.cost - quantity * UnitCost(l.cost, l.quantity))
  }

  function Replayed(lots: Lots, row: Row): Lots {
    if row.entry then
      var l := if row.symbol in lots then lots[row.symbol] else Lot(row.side, 0.0, 0.0, row.ts, row.traceId,
                                                                    row.levels);
      lots[row.symbol := AddTo(l, row.quantity, row.price)]
    else if row.symbol in lots then
      var l := TakeFrom(lots[row.symbol], row.quantity);
      if l.quantity <= DUST then lots - {row.symbol} else lots[row.symbol := l]
    else lots
  }

  function Replay(rows: seq<Row>): Lots {
    if rows == [] then map[] else Replayed(Replay(rows[..|rows| - 1]), rows[|rows| - 1])
  }

  /** A missing level, or one that is zero, is replaced by the average price. */
  function LevelOr(level: Option<real>, otherwise: real): real {
    if level.Some? && level.value != 0.0 then level.value else otherwise
  }

  function Rebuilt(symbol: string, l: Lot): Position {
    var average := UnitCost(l.cost, l.quantity);
    var stop := match l.levels case None => None case Some(v) => Some(v.stop);
    var target := match l.levels case None => None case Some(v) => Some(v.target);
    Position(symbol, l.side, l.quantity, average, l.ts, LevelOr(stop, average), LevelOr(target, average), 0.0,
             l.traceId,
             match l.levels case None => Reversal case Some(v) => v.action, 0.0, 0.0, 0.0, 0.0, 0.0)
  }

  function RebuiltBook(rows: seq<Row>): Holdings {
    map symbol | symbol in Replay(rows) :: Rebuilt(symbol, Replay(rows)[symbol])
  }

  /** The loop body of the replay: an entry adds at cost, an exit removes at average cost. */
  method NetRow(lots: Lots, row: Row) returns (book: Lots)
    ensures book == Replayed(lots, row)
  {
    hide AddTo, TakeFrom;
    book := lots;
    if row.entry {
      if row.symbol !in book {
        book := book[row.symbol := Lot(row.side, 0.0, 0.0, row.ts, row.traceId, row.levels)];
      }
      book := book[row.symbol := AddTo(book[row.symbol], row.quantity, row.price)];
      assert book == lots[row.symbol := book[row.symbol]];
    } else if row.symbol in book {
      var l := TakeFrom(book[row.symbol], row.quantity);
      book := if l.quantity <= DUST then book - {row.symbol} else book[row.symbol := l];
    }
  }

  class PositionEventLog {
    var rows: seq<Row>

    constructor (rows: seq<Row>)
      ensures this.rows == rows
    {
      this.rows := rows;
    }

    method AppendFill(entry: bool, fill: Fill, levels: Option<Levels>)
      modifies this
      ensures rows == old(rows) + [RowOf(entry, fill, levels)]
    {
      rows := rows + [Row(entry, fill.symbol, fill.side, fill.quantity, fill.price, fill.ts, fill.traceId, levels)];
    }

    method RebuildPositions() returns (out: Holdings)
      ensures out == RebuiltBook(rows)
    {
      hide Rebuilt, Replayed;
      var book: Lots := map[];
      for i := 0 to |rows|
        invariant book == Replay(rows[..i])
      {
        assert rows[..i + 1][..i] == rows[..i];
        book := NetRow(book, rows[i]);
      }
      assert rows[..|rows|] == rows;
      out := map[];
      var todo := book.Keys;
      while todo != {}
        invariant todo <= book.Keys && out.Keys == book.Keys - todo
        invariant forall symbol :: symbol in out ==> out[symbol] == Rebuilt(symbol, book[symbol])
        decreases |todo|
      {
        var symbol :| symbol in todo;
        out := out[symbol := Rebuilt(symbol, book[symbol])];
        todo := todo - {symbol};
      }
    }
  }

  // ----- the log against the live book

  /** The part of a position that a restart is meant to recover. */
  datatype View = View(symbol: string, side: Side, quantity: real, entryPrice: real, openedAt: Time, stop: real,
                       target: real,
                       traceId: string, action: GovernorAction)

  function ViewOf(p: Position): View {
    View(p.symbol, p.side, p.quantity, p.entryPrice, p.openedAt, p.stop, p.target, p.traceId, p.action)
  }

  /** Same position, one side keeping the average price and the other the total cost. */
  ghost predicate Mirrors(symbol: string, p: Position, l: Lot) {
    && p.symbol == symbol && p.side == l.side && p.quantity == l.quantity && 0.0 < p.quantity
    && l.cost == Cost(p) && p.openedAt == l.ts && p.traceId == l.traceId
    && l.levels == Some(Levels(p.stop, p.target, p.action))
  }

  lemma UnitCostExact(price: real, quantity: real)
    requires 0.0 < quantity
    ensures UnitCost(quantity * price, quantity) == price <==> TINY <= quantity || price == 0.0
  {
    var d := Max(quantity, TINY);
    var u := UnitCost(quantity * price, quantity);
    assert u * d == quantity * price;
    if quantity < TINY {
      assert (u - price) * d == price * (quantity - d);
      if u == price {
        ZeroFactor(price, d - quantity, price * (quantity - d));
      } else if price == 0.0 {
        ZeroFactor(u, d, u * d);
      }
    } else {
      ZeroFactor(u - price, d, u * d - price * d);
    }
  }

  lemma ZeroFactor(a: real, b: real, c: real)
    requires b > 0.0 && c == 0.0 && (c == a * b || c == a * (-b))
    ensures a == 0.0
  {
  }

  /**
   A restart recovers the position exactly when its quantity has outgrown the floor under the division and
   neither level is zero.  (A position entered at price zero cannot tell the difference.)
   */
  lemma RebuildExact(symbol: string, p: Position, l: Lot)
    requires Mirrors(symbol, p, l)
    ensures ViewOf(Rebuilt(symbol, l)) == ViewOf(p)
            <==> p.entryPrice == 0.0 || (TINY <= p.quantity && p.stop != 0.0 && p.target != 0.0)
  {
    UnitCostExact(p.entryPrice, p.quantity);
    hide UnitCost;
  }

  // ----- keeping them together

  lemma OpenedMirrors(fill: Fill, sig: Signal, l: Lot)
    requires 0.0 < fill.quantity && fill.traceId == sig.traceId
    requires l == AddTo(Lot(fill.side, 0.0, 0.0, fill.ts, fill.traceId, Some(Levels(sig.stop, sig.target, sig.action))),
                        fill.quantity, fill.price)
    ensures Mirrors(fill.symbol, Opened(fill, sig), l)
  {
  }

  lemma AddedMirrors(p: Position, fill: Fill, l: Lot)
    requires Mirrors(fill.symbol, p, l) && 0.0 < fill.quantity
    ensures Mirrors(fill.symbol, Added(p, fill), AddTo(l, fill.quantity, fill.price))
  {
    AverageCost(p.entryPrice, p.quantity, fill.price, fill.quantity);
    hide Average;
  }

  lemma CostAfterExit(quantity: real, price: real, x: real, unit: real)
    requires unit == price
    ensures quantity * price - x * unit == (quantity - x) * price
  {
  }

  /** An exit flattens both or neither; what is left still mirrors. */
  lemma ReducedMirrors(p: Position, fill: Fill, l: Lot)
    requires Mirrors(fill.symbol, p, l) && 0.0 < fill.quantity
    ensures Reduced(p, fill).quantity > DUST <==> TakeFrom(l, fill.quantity).quantity > DUST
    ensures Reduced(p, fill).quantity > DUST ==> Mirrors(fill.symbol, Reduced(p, fill), TakeFrom(l, fill.quantity))
  {
    if p.quantity - fill.quantity > DUST {
      UnitCostExact(p.entryPrice, p.quantity);
      CostAfterExit(p.quantity, p.entryPrice, fill.quantity, UnitCost(l.cost, l.quantity));
    }
    hide UnitCost;
  }
}
