/** Revision numbers: what they count, and that the journal's rows of an order come in their order. */
module Revisions {
  import opened Wrappers
  import opened RealMath
  import opened Models
  import opened Orders
  import opened Journal
  import opened OrderManagement
  import opened OrderRuns

  // ----- what a revision counts

  /** A fill that leaves a partially filled order partially filled: it is counted but not recorded. */
  predicate Unrecorded(o: ManagedOrder, op: Op) {
    op.Execution? && o.state == Partial && Left(o.request.quantity, o.filledQty + op.quantity) > DUST
  }

  function Played(o: ManagedOrder, ops: seq<(Op, Time)>): ManagedOrder
    decreases |ops|
  {
    if ops == [] then o else Played(Apply(o, ops[0].0, ops[0].1).order, ops[1..])
  }

  function UnrecordedIn(o: ManagedOrder, ops: seq<(Op, Time)>): nat
    decreases |ops|
  {
    if ops == [] then 0 else
    (if Unrecorded(o, ops[0].0) then 1 else 0) + UnrecordedIn(Apply(o, ops[0].0, ops[0].1).order, ops[1..])
  }

  lemma ApplyCounts(o: ManagedOrder, op: Op, now: Time)
    ensures var s := Apply(o, op, now);
            && s.order.revision - |s.order.history| == o.revision - |o.history| + (if Unrecorded(o, op) then 1 else 0)
            && (s.transitioned ==> |s.order.history| == |o.history| + 1 && s.order.revision == o.revision + 1)
            && (!s.transitioned ==> s.order.history == o.history)
  {
    if op.Execution? { AccumulateCounts(o, op.quantity, op.price); }
    hide Accumulate;
  }

  lemma AccumulateCounts(o: ManagedOrder, quantity: real, price: real)
    ensures var o' := Accumulate(o, quantity, price);
            && o'.revision == o.revision && o'.history == o.history && o'.state == o.state && o'.request == o.request
            && o'.filledQty == o.filledQty + quantity
  {
  }

  lemma {:induction false} PlayedCounts(o: ManagedOrder, ops: seq<(Op, Time)>)
    ensures Played(o, ops).revision - |Played(o, ops).history| == o.revision - |o.history| + UnrecordedIn(o, ops)
    decreases |ops|
  {
    hide Apply, Unrecorded;
    if ops != [] {
      ApplyCounts(o, ops[0].0, ops[0].1);
      PlayedCounts(Apply(o, ops[0].0, ops[0].1).order, ops[1..]);
    }
  }

  /** Whatever happens to a new order, its revision is its recorded transitions plus its unrecorded fills. */
  lemma RevisionCounts(req: OrderRequest, reference: real, risk: real, ttl: Option<Time>, activation: Time, now: Time,
                       ops: seq<(Op, Time)>)
    ensures var o := NewOrder(req, reference, risk, ttl, activation, now);
            Played(o, ops).revision == |Played(o, ops).history| + UnrecordedIn(o, ops)
  {
    PlayedCounts(NewOrder(req, reference, risk, ttl, activation, now), ops);
    hide Played, UnrecordedIn;
  }

  // ----- rows of the journal

  /** Rows of one order carry strictly increasing revisions. */
  ghost predicate RowsAscend(rows: seq<JournalRow>) {
    forall i, j :: 0 <= i < j < |rows| && rows[i].request.coid == rows[j].request.coid ==>
      rows[i].revision < rows[j].revision
  }

  ghost predicate RowsBelow(b: Book) {
    forall r :: r in b.rows ==> r.request.coid in b.orders && r.revision <= b.orders[r.request.coid].revision
  }

  ghost predicate Ascending(b: Book) { WellFormed(b) && RowsAscend(b.rows) && RowsBelow(b) }

  lemma PutAscends(b: Book, coid: string, s: Step)
    requires Ascending(b) && coid in b.orders && s.order.request == b.orders[coid].request
    requires b.orders[coid].revision <= s.order.revision
    requires s.transitioned ==> b.orders[coid].revision < s.order.revision
    ensures Ascending(Put(b, coid, s))
  {
    PutKeepsWellFormed(b, coid, s);
    var b' := Put(b, coid, s);
    assert b.orders[coid].request.coid == coid;
    hide WellFormed;
    forall i, j | 0 <= i < j < |b'.rows| && b'.rows[i].request.coid == b'.rows[j].request.coid
      ensures b'.rows[i].revision < b'.rows[j].revision
    {
      assert b'.rows[i] == b.rows[i] && b.rows[i] in b.rows;
    }
  }

  lemma DoAscends(b: Book, coid: string, op: Op, now: Time)
    requires Ascending(b)
    ensures Ascending(Do(b, coid, op, now).book)
  {
    hide Ascending, Apply;
    if coid in b.orders {
      ApplyCounts(b.orders[coid], op, now);
      ApplyFrame(b.orders[coid], op, now);
      PutAscends(b, coid, Apply(b.orders[coid], op, now));
    }
  }

  lemma {:induction false} SweepAscends(b: Book, ids: seq<string>, now: Time)
    requires Ascending(b)
    ensures Ascending(Sweep(b, ids, now).0)
    decreases |ids|
  {
    hide Ascending, Do;
    if ids != [] {
      DoAscends(b, ids[0], Ttl, now);
      SweepAscends(Do(b, ids[0], Ttl, now).book, ids[1..], now);
    }
  }

  lemma CreatedAscends(b: Book, cap: Option<real>, e: Event)
    requires Ascending(b) && e.Opened?
    ensures Ascending(Created(b, cap, e.req, e.reference, e.risk, e.ttl, e.activation, e.now).book)
  {
    CreatedAdds(b, cap, e);
    var r := Created(b, cap, e.req, e.reference, e.risk, e.ttl, e.activation, e.now);
    if !r.raised {
      forall i, j | 0 <= i < j < |r.book.rows| && r.book.rows[i].request.coid == r.book.rows[j].request.coid
        ensures r.book.rows[i].revision < r.book.rows[j].revision
      {
        assert r.book.rows[i] == b.rows[i] && b.rows[i] in b.rows;
      }
    }
    hide HasActiveEntry, ReservedNotional, Created;
  }

  lemma AdvanceAscends(h: History, cap: Option<real>, e: Event)
    requires Ascending(h.book) && h.fills.Keys == h.book.orders.Keys && Sensible(e)
    ensures Ascending(Advance(h, cap, e).book)
  {
    match e
    case Opened(_, _, _, _, _, _) => CreatedAscends(h.book, cap, e);
    case Happened(coid, op, now) => DoAscends(h.book, coid, op, now);
    case Swept(now) => SweepAscends(h.book, h.book.ids, now);
    case Crashed(_) => assert false;
    hide Ascending, Created, Do, Sweep;
  }

  lemma {:induction false} RunAscends(h: History, cap: Option<real>, events: seq<Event>, h': History)
    requires Ascending(h.book) && Run(h, cap, events, h')
    ensures Ascending(h'.book)
    decreases |events|
  {
    hide Ascending, Advance, WellFormed, Sensible;
    if events != [] {
      AdvanceAscends(h, cap, events[0]);
      RunAscends(Advance(h, cap, events[0]), cap, events[1..], h');
    }
  }

  /** After every run of one process, the journal's rows of each order carry strictly increasing revisions. */
  lemma RevisionsAscend(cap: Option<real>, events: seq<Event>, h: History)
    requires Run(Fresh, cap, events, h)
    ensures RowsAscend(h.book.rows)
  {
    assert Ascending(Fresh.book);
    RunAscends(Fresh, cap, events, h);
    hide Run, RowsAscend;
  }

  /**
   A restart starts the count over: the next recorded transition of a restored order continues the ascent exactly
   when nothing but its creation had been recorded.
   */
  lemma RestartRepeatsRevisions(rows: seq<JournalRow>, coid: string, op: Op, now: Time)
    requires RowsAscend(rows) && Latest(rows, coid).Some?
    requires Apply(Revived(Latest(rows, coid).value), op, now).transitioned
    ensures var row := RowOf(Apply(Revived(Latest(rows, coid).value), op, now).order);
            row.request.coid == coid && (RowsAscend(rows + [row]) <==> Latest(rows, coid).value.revision == 0)
  {
    var o := Revived(Latest(rows, coid).value);
    ApplyCounts(o, op, now);
    ApplyFrame(o, op, now);
    var row := RowOf(Apply(o, op, now).order);
    assert row.revision == 1 && row.request.coid == coid;
    hide Apply, Revived;
    var k := LatestAt(rows, coid);
    if RowsAscend(rows + [row]) {
      assert (rows + [row])[k] == rows[k] && (rows + [row])[|rows|] == row;
    }
  }

  lemma {:induction false} LatestAt(rows: seq<JournalRow>, coid: string) returns (k: nat)
    requires Latest(rows, coid).Some?
    ensures k < |rows| && rows[k] == Latest(rows, coid).value && rows[k].request.coid == coid
    ensures forall i :: k < i < |rows| ==> rows[i].request.coid != coid
  {
    k := |rows| - 1;
    if rows[k].request.coid != coid { k := LatestAt(rows[..k], coid); }
  }
}
