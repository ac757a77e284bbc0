/** The order manager: one book of orders, every change of state journaled. */
module OrderManagement {
  import opened Wrappers
  import opened RealMath
  import opened Models
  import opened Orders
  import opened Journal

  /**
   The state of the manager: the orders in insertion order, the journal it writes to, and the orders
   reported through `on_terminal`, in the order of the calls.
   */
  datatype Book = Book(ids: seq<string>, orders: map<string, ManagedOrder>, rows: seq<JournalRow>,
                       finished: seq<string>)

  datatype Outcome = Outcome(book: Book, raised: bool)

  ghost predicate WellFormed(b: Book) {
    && (forall i, j :: 0 <= i < j < |b.ids| ==> b.ids[i] != b.ids[j])
    && (forall c :: c in b.ids <==> c in b.orders)
    && (forall c :: c in b.orders ==> b.orders[c].request.coid == c)
  }

  predicate Active(b: Book, coid: string) { coid in b.orders && !Terminal(b.orders[coid].state) }

  predicate IsActiveEntry(o: ManagedOrder, symbol: string) {
    !Terminal(o.state) && o.request.intent.Entry? && o.request.symbol == symbol
  }

  predicate HasActiveEntry(orders: map<string, ManagedOrder>, symbol: string) {
    exists coid :: coid in orders && IsActiveEntry(orders[coid], symbol)
  }

  function Reserved(o: ManagedOrder): real { if Terminal(o.state) then 0.0 else o.reservedNotional }

  function ReservedNotional(ids: seq<string>, orders: map<string, ManagedOrder>): real
    requires forall c :: c in ids ==> c in orders
  {
    if ids == [] then 0.0 else ReservedNotional(ids[..|ids| - 1], orders) + Reserved(orders[ids[|ids| - 1]])
  }

  function RowOf(o: ManagedOrder): JournalRow { JournalRow(o.request, o.state, o.filledQty, o.revision) }

  /** Files the result of one order operation. */
  function Put(b: Book, coid: string, s: Step): Book {
    Book(b.ids, b.orders[coid := s.order],
         if s.transitioned then b.rows + [RowOf(s.order)] else b.rows,
         if s.transitioned && Terminal(s.order.state) then b.finished + [coid] else b.finished)
  }

  /** Unknown ids raise `KeyError` where the order is indexed and are ignored where it is looked up. */
  function Do(b: Book, coid: string, op: Op, now: Time): Outcome {
    if coid !in b.orders then Outcome(b, op.MarkSubmitting? || op.Execution?) else
    var s := Apply(b.orders[coid], op, now);
    Outcome(Put(b, coid, s), s.raised)
  }

  predicate Exceeds(cap: Option<real>, amount: real) { cap.Some? && amount > cap.value }

  function Created(b: Book, cap: Option<real>, req: OrderRequest, reference: real, risk: real, ttl: Option<Time>,
                  activation: Time, now: Time): Outcome
    requires WellFormed(b)
  {
    if req.coid in b.orders then Outcome(b, true)
    else if req.intent.Entry? && HasActiveEntry(b.orders, req.symbol) then Outcome(b, true)
    else if Exceeds(cap, ReservedNotional(b.ids, b.orders) + Abs(req.quantity) * reference) then Outcome(b, true)
    else
      var o := NewOrder(req, reference, risk, ttl, activation, now);
      Outcome(Book(b.ids + [req.coid], b.orders[req.coid := o], b.rows + [RowOf(o)], b.finished), false)
  }

  /** The timer sweep over the given ids: the book afterwards and the ids whose cancel is to be sent. */
  function Sweep(b: Book, ids: seq<string>, now: Time): (Book, seq<string>)
    decreases |ids|
  {
    if ids == [] then (b, []) else
    var coid := ids[0];
    var cancel := if coid in b.orders && SweptToCancel(b.orders[coid], now) then [coid] else [];
    var (b', rest) := Sweep(Do(b, coid, Ttl, now).book, ids[1..], now);
    (b', cancel + rest)
  }

  function Restored(b: Book, o: ManagedOrder): Book {
    b.(ids := if o.request.coid in b.orders then b.ids else b.ids + [o.request.coid],
       orders := b.orders[o.request.coid := o])
  }

  lemma PutKeepsWellFormed(b: Book, coid: string, s: Step)
    requires WellFormed(b) && coid in b.orders && s.order.request == b.orders[coid].request
    ensures WellFormed(Put(b, coid, s))
  {
  }

  /** Writing an order back unchanged changes nothing. */
  lemma PutBack(b: Book, coid: string)
    requires coid in b.orders
    ensures Put(b, coid, Step(b.orders[coid], false, false)) == b
  {
    assert b.orders[coid := b.orders[coid]] == b.orders;
  }

  lemma DoKeepsWellFormed(b: Book, coid: string, op: Op, now: Time)
    requires WellFormed(b)
    ensures WellFormed(Do(b, coid, op, now).book) && Do(b, coid, op, now).book.ids == b.ids
  {
    if coid in b.orders {
      ApplyFrame(b.orders[coid], op, now);
      PutKeepsWellFormed(b, coid, Apply(b.orders[coid], op, now));
    }
  }

  /** About an id that is not on the book, only marks and fills raise, and nothing changes. */
  lemma UnknownIds(b: Book, coid: string, op: Op, now: Time)
    requires coid !in b.orders
    ensures Do(b, coid, op, now).book == b
    ensures Do(b, coid, op, now).raised <==> !(op.Ack? || op.Reject? || op.RequestCancel? || op.CancelAck? || op.Ttl?)
  {
  }

  /** Two writes to the same order come to the second one. */
  lemma PutTwice(b: Book, coid: string, o: ManagedOrder)
    requires coid in b.orders
    ensures forall s: Step :: Put(Put(b, coid, Step(o, false, false)), coid, s) == Put(b, coid, s)
  {
    forall s: Step ensures Put(Put(b, coid, Step(o, false, false)), coid, s) == Put(b, coid, s) {
      assert b.orders[coid := o][coid := s.order] == b.orders[coid := s.order];
    }
  }

  lemma SweepNext(b: Book, i: nat, now: Time)
    requires WellFormed(b) && i < |b.ids|
    ensures b.ids[i] in b.orders
    ensures var coid := b.ids[i];
            var rest := Sweep(Do(b, coid, Ttl, now).book, b.ids[i + 1..], now);
            Sweep(b, b.ids[i..], now)
            == (rest.0, (if SweptToCancel(b.orders[coid], now) then [coid] else []) + rest.1)
  {
    assert b.ids[i..][1..] == b.ids[i + 1..];
  }

  lemma SweepNil(b: Book, now: Time)
    ensures Sweep(b, [], now) == (b, [])
  {
  }

  class OrderManager {
    const cap: Option<real>
    const journal: OrderJournal
    var ids: seq<string>
    var orders: map<string, ManagedOrder>
    var finished: seq<string>

    ghost function State(): Book
      reads this, journal
    {
      Book(ids, orders, journal.rows, finished)
    }

    ghost predicate Valid()
      reads this, journal
    {
      WellFormed(State()) && journal.Valid()
    }

    constructor (journal: OrderJournal, cap: Option<real>)
      requires journal.Valid()
      ensures Valid() && this.journal == journal && this.cap == cap
      ensures State() == Book([], map[], journal.rows, [])
    {
      this.journal, this.cap := journal, cap;
      ids, orders, finished := [], map[], [];
    }

    method Create(req: OrderRequest, reference: real, risk: real, ttl: Option<Time>, activation: Time, now: Time)
      returns (raised: bool)
      requires Valid()
      modifies this, journal`rows, journal`seen
      ensures Valid()
      ensures Outcome(State(), raised) == Created(old(State()), cap, req, reference, risk, ttl, activation, now)
    {
      if req.coid in orders {
        return true;
      }
      if req.intent.Entry? && HasActiveEntry(orders, req.symbol) {
        return true;
      }
      var notional := Abs(req.quantity) * reference;
      if Exceeds(cap, ReservedNotional(ids, orders) + notional) {
        return true;
      }
      var o := ManagedOrder(req, New, 0.0, 0.0, risk, notional, Some(now), None, None, 0, []);
      if req.orderType.Market? && activation > 0.0 {
        o := o.(activateAt := Some(now + activation));
      }
      if ttl.Some? {
        o := o.(expireAt := Some(now + ttl.value));
      }
      ids, orders := ids + [req.coid], orders[req.coid := o];
      journal.Record(req, o.state, o.filledQty, o.revision);
      raised := false;
    }

    /** `_transition`: the one place where states change. */
    method Transition(coid: string, to: OState, now: Time) returns (raised: bool)
      requires journal.Valid() && coid in orders
      modifies this`orders, this`finished, journal`rows, journal`seen
      ensures journal.Valid()
      ensures var s := Orders.Transition(old(orders)[coid], to, now);
              raised == s.raised && State() == Put(old(State()), coid, s)
    {
      hide Legal, Terminal;
      var o := orders[coid];
      if to !in Legal(o.state) {
        assert orders[coid := o] == orders;
        return true;
      }
      o := o.(state := to, revision := o.revision + 1, history := o.history + [(now, to)]);
      journal.Record(o.request, o.state, o.filledQty, o.revision);
      if Terminal(to) {
        o := o.(reservedRisk := 0.0, reservedNotional := 0.0);
        finished := finished + [coid];
      }
      orders := orders[coid := o];
      raised := false;
    }

    method MarkSubmitting(coid: string, now: Time) returns (raised: bool)
      requires Valid()
      modifies this, journal`rows, journal`seen
      ensures Valid() && Outcome(State(), raised) == Do(old(State()), coid, Op.MarkSubmitting, now)
    {
      DoKeepsWellFormed(State(), coid, Op.MarkSubmitting, now);
      hide WellFormed;
      if coid !in orders { return true; }
      raised := Transition(coid, Submitting, now);
    }

    method OnAck(coid: string, now: Time)
      requires Valid()
      modifies this, journal`rows, journal`seen
      ensures Valid() && Outcome(State(), false) == Do(old(State()), coid, Ack, now)
    {
      DoKeepsWellFormed(State(), coid, Ack, now);
      hide WellFormed;
      if coid in orders {
        PutBack(State(), coid);
        if orders[coid].state == Submitting {
          var raised := Transition(coid, Acknowledged, now);
        }
      }
    }

    method OnReject(coid: string, now: Time) returns (raised: bool)
      requires Valid()
      modifies this, journal`rows, journal`seen
      ensures Valid() && Outcome(State(), raised) == Do(old(State()), coid, Reject, now)
    {
      raised := false;
      DoKeepsWellFormed(State(), coid, Reject, now);
      hide WellFormed;
      if coid in orders {
        PutBack(State(), coid);
        if !Terminal(orders[coid].state) {
          raised := Transition(coid, Rejected, now);
        }
      }
    }

    /** Cumulative averaging and proportional release, before any transition. */
    static method AccumulateFill(order: ManagedOrder, fill: Fill) returns (o: ManagedOrder)
      ensures o == Accumulate(order, fill.quantity, fill.price)
    {
      o := order;
      var before := o.filledQty;
      o := o.(avgFillPrice := (o.avgFillPrice * before + fill.price * fill.quantity) / Max(before + fill.quantity,
                                                                                           TINY));
      o := o.(filledQty := before + fill.quantity);
      var keep := if Remaining(o) > 0.0 then Remaining(o) / Max(o.request.quantity, TINY) else 0.0;
      o := o.(reservedRisk := o.reservedRisk * keep, reservedNotional := o.reservedNotional * keep);
    }

    method OnFill(fill: Fill, now: Time) returns (raised: bool)
      requires Valid()
      modifies this, journal`rows, journal`seen
      ensures Valid()
      ensures Outcome(State(), raised) == Do(old(State()), fill.coid, Execution(fill.quantity, fill.price), now)
    {
      DoKeepsWellFormed(State(), fill.coid, Execution(fill.quantity, fill.price), now);
      hide WellFormed;
      if fill.coid !in orders { return true; }
      raised := false;
      var o := AccumulateFill(orders[fill.coid], fill);
      hide Accumulate, Legal, Terminal;
      PutTwice(State(), fill.coid, o);
      orders := orders[fill.coid := o];
      assert State() == Put(old(State()), fill.coid, Step(o, false, false));
      if Remaining(o) <= DUST {
        if o.state != Filled {
          raised := Transition(fill.coid, Filled, now);
        }
      } else if o.state in {Submitting, Acknowledged, Partial, CancelPending} {
        if o.state != Partial {
          raised := Transition(fill.coid, Partial, now);
        } else {
          orders := orders[fill.coid := o.(revision := o.revision + 1)];
        }
      }
    }

    method RequestCancel(coid: string, now: Time) returns (sent: bool)
      requires Valid()
      modifies this, journal`rows, journal`seen
      ensures Valid() && State() == Do(old(State()), coid, Op.RequestCancel, now).book
      ensures sent <==> coid in old(orders) && old(orders)[coid].state in {Acknowledged, Partial}
    {
      DoKeepsWellFormed(State(), coid, Op.RequestCancel, now);
      hide WellFormed;
      sent := false;
      if coid in orders {
        PutBack(State(), coid);
        if orders[coid].state in {Acknowledged, Partial} {
          var raised := Transition(coid, CancelPending, now);
          sent := true;
        }
      }
    }

    method OnCancelAck(coid: string, now: Time)
      requires Valid()
      modifies this, journal`rows, journal`seen
      ensures Valid() && State() == Do(old(State()), coid, CancelAck, now).book
    {
      DoKeepsWellFormed(State(), coid, CancelAck, now);
      hide WellFormed;
      if coid in orders {
        PutBack(State(), coid);
        if orders[coid].state == CancelPending {
          var raised := Transition(coid, Cancelled, now);
        }
      }
    }

    /** One iteration of the timer sweep. */
    method SweepOrder(coid: string, now: Time) returns (cancel: bool)
      requires Valid() && coid in orders
      modifies this, journal`rows, journal`seen
      ensures Valid() && ids == old(ids) && State() == Do(old(State()), coid, Ttl, now).book
      ensures cancel <==> SweptToCancel(old(orders)[coid], now)
    {
      DoKeepsWellFormed(State(), coid, Ttl, now);
      PutBack(State(), coid);
      hide WellFormed, Legal;
      cancel := false;
      var o := orders[coid];
      if !Terminal(o.state) {
        if o.expireAt.Some? && now >= o.expireAt.value {
          if o.state in {Acknowledged, Partial} {
            var raised := Transition(coid, CancelPending, now);
            cancel := true;
          } else if o.state == Submitting {
            // never acknowledged within its time to live: expire locally
            var raised := Transition(coid, Expired, now);
          }
        }
      }
    }

    method Poll(now: Time) returns (toCancel: seq<string>)
      requires Valid()
      modifies this, journal`rows, journal`seen
      ensures Valid() && (State(), toCancel) == Sweep(old(State()), old(ids), now)
    {
      hide Sweep, Do, SweptToCancel, WellFormed;
      toCancel := [];
      ghost var before := State();
      assert ids[0..] == ids;
      for i := 0 to |ids|
        invariant Valid() && ids == before.ids
        invariant Sweep(before, before.ids, now).0 == Sweep(State(), ids[i..], now).0
        invariant Sweep(before, before.ids, now).1 == toCancel + Sweep(State(), ids[i..], now).1
      {
        SweepNext(State(), i, now);
        ghost var rest := Sweep(Do(State(), ids[i], Ttl, now).book, ids[i + 1..], now);
        var cancel := SweepOrder(ids[i], now);
        if cancel {
          assert toCancel + ([ids[i]] + rest.1) == (toCancel + [ids[i]]) + rest.1;
          toCancel := toCancel + [ids[i]];
        } else {
          assert [] + rest.1 == rest.1;
        }
      }
      SweepNil(State(), now);
      assert ids[|ids|..] == [];
      assert toCancel + [] == toCancel;
    }

    method Restore(o: ManagedOrder)
      requires Valid()
      modifies this`ids, this`orders
      ensures Valid() && State() == Restored(old(State()), o)
    {
      if o.request.coid !in orders {
        ids := ids + [o.request.coid];
      }
      orders := orders[o.request.coid := o];
    }
  }
}
