/** One order inside the order manager: its states, the legal transitions, and what each callback does to it. */
module Orders {
  import opened Wrappers
  import opened RealMath
  import opened Models

  datatype OState = New | Submitting | Acknowledged | Partial | Filled | CancelPending | Cancelled | Rejected | Expired

  predicate Terminal(s: OState) { s in {Filled, Cancelled, Rejected, Expired} }

  /** The table `_LEGAL`. */
  function Legal(s: OState): set<OState> {
    match s
    case New => {Submitting, Rejected}
    case Submitting => {Acknowledged, Rejected, Partial, Filled, Expired}
    case Acknowledged => {Partial, Filled, CancelPending, Rejected, Expired}
    case Partial => {Partial, Filled, CancelPending, Expired}
    case CancelPending => {Cancelled, Partial, Filled}
    case Cancelled => {}
    case Filled => {}
    case Rejected => {}
    case Expired => {}
  }

  datatype ManagedOrder = ManagedOrder(
    request: OrderRequest, state: OState, filledQty: real, avgFillPrice: real,
    reservedRisk: real, reservedNotional: real,
    createdAt: Option<Time>, activateAt: Option<Time>, expireAt: Option<Time>,
    revision: nat, history: seq<(Time, OState)>)

  function Left(quantity: real, filled: real): real { Max(0.0, quantity - filled) }

  function Remaining(o: ManagedOrder): real { Left(o.request.quantity, o.filledQty) }

  function NewOrder(req: OrderRequest, reference: real, risk: real, ttl: Option<Time>, activation: Time,
                    now: Time): ManagedOrder {
    ManagedOrder(req, New, 0.0, 0.0, risk, Abs(req.quantity) * reference, Some(now),
                 if req.orderType.Market? && activation > 0.0 then Some(now + activation) else None,
                 match ttl case None => None case Some(t) => Some(now + t), 0, [])
  }

  /** Everything that can happen to an order after it was created. */
  datatype Op = MarkSubmitting | Ack | Reject | Execution(quantity: real, price: real) | RequestCancel | CancelAck | Ttl

  /** What an operation did: the order afterwards, whether it journaled and finished, or raised. */
  datatype Step = Step(order: ManagedOrder, transitioned: bool, raised: bool)

  function Transition(o: ManagedOrder, to: OState, now: Time): Step {
    if to !in Legal(o.state) then Step(o, false, true) else
    var moved := o.(state := to, revision := o.revision + 1, history := o.history + [(now, to)]);
    Step(if Terminal(to) then moved.(reservedRisk := 0.0, reservedNotional := 0.0) else moved, true, false)
  }

  /** The bookkeeping of `on_fill` before any transition. */
  function Accumulate(o: ManagedOrder, quantity: real, price: real): ManagedOrder {
    var total := o.filledQty + quantity;
    var o' := o.(avgFillPrice := (o.avgFillPrice * o.filledQty + price * quantity) / Max(total, TINY),
                 filledQty := total);
    var keep := if Remaining(o') > 0.0 then Remaining(o') / Max(o.request.quantity, TINY) else 0.0;
    o'.(reservedRisk := o.reservedRisk * keep, reservedNotional := o.reservedNotional * keep)
  }

  predicate Overdue(o: ManagedOrder, now: Time) { o.expireAt.Some? && now >= o.expireAt.value }

  /** The timer sweep sends a cancel for this order. */
  predicate SweptToCancel(o: ManagedOrder, now: Time) {
    Overdue(o, now) && o.state in {Acknowledged, Partial}
  }

  function Apply(o: ManagedOrder, op: Op, now: Time): Step {
    match op
    case MarkSubmitting => Transition(o, Submitting, now)
    case Ack => if o.state == Submitting then Transition(o, Acknowledged, now) else Step(o, false, false)
    case Reject => if !Terminal(o.state) then Transition(o, Rejected, now) else Step(o, false, false)
    case Execution(quantity, price) =>
      var o' := Accumulate(o, quantity, price);
      if Remaining(o') <= DUST then
        if o.state != Filled then Transition(o', Filled, now) else Step(o', false, false)
      else if o.state in {Submitting, Acknowledged, CancelPending} then Transition(o', Partial, now)
      else if o.state == Partial then Step(o'.(revision := o.revision + 1), false, false)
      else Step(o', false, false)
    case RequestCancel =>
      if o.state in {Acknowledged, Partial} then Transition(o, CancelPending, now) else Step(o, false, false)
    case CancelAck => if o.state == CancelPending then Transition(o, Cancelled, now) else Step(o, false, false)
    case Ttl =>
      if SweptToCancel(o, now) then Transition(o, CancelPending, now)
      else if Overdue(o, now) && o.state == Submitting then Transition(o, Expired, now)
      else Step(o, false, false)
  }

  // ----- what every operation keeps, order by order

  /** The state an order's history leads to. */
  function StateAfter(history: seq<(Time, OState)>): OState {
    if history == [] then New else history[|history| - 1].1
  }

  /** Each recorded state is a legal successor of the one before, starting from NEW. */
  predicate LegalPath(history: seq<(Time, OState)>) {
    history == [] ||
    (var front := history[..|history| - 1];
     LegalPath(front) && history[|history| - 1].1 in Legal(StateAfter(front)))
  }

  /** How many transitions a state can be away from NEW when no fill ever interrupted a cancel. */
  function Rank(s: OState): nat {
    match s
    case New => 0
    case Submitting => 1
    case Acknowledged => 2
    case Partial => 2
    case CancelPending => 3
    case _ => 4
  }

  type Executions = seq<(real, real)>

  function Shares(fills: Executions): real {
    if fills == [] then 0.0 else Shares(fills[..|fills| - 1]) + fills[|fills| - 1].0
  }

  function Notional(fills: Executions): real {
    if fills == [] then 0.0 else Notional(fills[..|fills| - 1]) + fills[|fills| - 1].1 * fills[|fills| - 1].0
  }

  /** The recorded path is legal, ends in the order's state, and is at most 4 + 2k long after k fills. */
  ghost predicate PathSound(o: ManagedOrder, fills: Executions) {
    && LegalPath(o.history) && StateAfter(o.history) == o.state
    && |o.history| <= Rank(o.state) + 2 * |fills|
  }

  /** The reservation never exceeds the unfilled share of what was reserved at creation. */
  ghost predicate ReservationSound(o: ManagedOrder, initial: real) {
    && 0.0 <= o.reservedNotional
    && o.reservedNotional * o.request.quantity <= initial * Remaining(o)
    && (Terminal(o.state) ==> o.reservedNotional == 0.0 && o.reservedRisk == 0.0)
  }

  ghost predicate FillsSound(o: ManagedOrder, fills: Executions) {
    && o.filledQty == Shares(fills) && 0.0 <= o.filledQty
    && o.avgFillPrice * o.filledQty == Notional(fills)
  }

  function Recorded(fills: Executions, op: Op): Executions {
    if op.Execution? then fills + [(op.quantity, op.price)] else fills
  }

  /** A recorded state is a legal successor, and the rank plus two per fill pays for recording it. */
  lemma TransitionKeepsPath(o: ManagedOrder, to: OState, now: Time, fills: nat, paid: nat)
    requires LegalPath(o.history) && StateAfter(o.history) == o.state && |o.history| <= Rank(o.state) + 2 * fills
    requires Rank(o.state) < Rank(to) || (paid > 0 && to == Partial)
    ensures var s := Transition(o, to, now);
            && LegalPath(s.order.history) && StateAfter(s.order.history) == s.order.state
            && |s.order.history| <= Rank(s.order.state) + 2 * (fills + paid)
  {
    if to in Legal(o.state) {
      ExtendPath(o.history, to, now);
      RankBound(o.state, to, paid);
    }
    hide LegalPath, StateAfter, Legal, Rank;
  }

  lemma ExtendPath(history: seq<(Time, OState)>, to: OState, now: Time)
    requires LegalPath(history) && to in Legal(StateAfter(history))
    ensures LegalPath(history + [(now, to)]) && StateAfter(history + [(now, to)]) == to
  {
    var h := history + [(now, to)];
    assert h[..|h| - 1] == history;
  }

  lemma RankBound(from: OState, to: OState, paid: nat)
    requires to in Legal(from) && (Rank(from) < Rank(to) || (paid > 0 && to == Partial))
    ensures Rank(from) + 1 <= Rank(to) + 2 * paid
  {
  }

  /** Every operation follows the table; a fill buys at most two further transitions. */
  lemma ApplyKeepsPath(o: ManagedOrder, op: Op, now: Time, fills: Executions)
    requires PathSound(o, fills)
    ensures PathSound(Apply(o, op, now).order, Recorded(fills, op))
  {
    hide Accumulate, LegalPath, StateAfter;
    match op
    case MarkSubmitting => if o.state == New { TransitionKeepsPath(o, Submitting, now, |fills|, 0); }
    case Ack => if o.state == Submitting { TransitionKeepsPath(o, Acknowledged, now, |fills|, 0); }
    case Reject => if !Terminal(o.state) { TransitionKeepsPath(o, Rejected, now, |fills|, 0); }
    case Execution(quantity, price) =>
      AccumulateFrame(o, quantity, price);
      var o' := Accumulate(o, quantity, price);
      if !Terminal(o.state) {
        TransitionKeepsPath(o', Filled, now, |fills|, 1);
        TransitionKeepsPath(o', Partial, now, |fills|, 1);
      }
    case RequestCancel => if o.state in {Acknowledged, Partial} { TransitionKeepsPath(o, CancelPending, now, |fills|,
                                                                                      0); }
    case CancelAck => if o.state == CancelPending { TransitionKeepsPath(o, Cancelled, now, |fills|, 0); }
    case Ttl =>
      if SweptToCancel(o, now) {
        TransitionKeepsPath(o, CancelPending, now, |fills|, 0);
      } else if o.state == Submitting {
        TransitionKeepsPath(o, Expired, now, |fills|, 0);
      }
  }

  /** The bookkeeping of a fill moves no state. */
  lemma AccumulateFrame(o: ManagedOrder, quantity: real, price: real)
    ensures var o' := Accumulate(o, quantity, price);
            && o'.state == o.state && o'.history == o.history && o'.request == o.request
            && o'.expireAt == o.expireAt && o'.filledQty == o.filledQty + quantity
  {
  }

  lemma PathLength(o: ManagedOrder, fills: Executions)
    requires PathSound(o, fills)
    ensures |o.history| <= 4 + 2 * |fills|
  {
  }

  /** No operation moves an order out of a terminal state, and none is reported a second time. */
  lemma TerminalAbsorbs(o: ManagedOrder, op: Op, now: Time)
    requires Terminal(o.state)
    ensures var s := Apply(o, op, now);
            s.order.state == o.state && s.order.history == o.history && !s.transitioned
  {
  }

  /** After this many more shares, no more than dust is left. */
  predicate Completing(o: ManagedOrder, quantity: real) { o.request.quantity - (o.filledQty + quantity) <= DUST }

  /**
   What the table refuses: marking twice, rejecting an order that is partly filled or being cancelled, and a fill
   that completes an order which was never submitted or has ended otherwise.  Nothing else raises.
   */
  lemma RaisesWhen(o: ManagedOrder, op: Op, now: Time)
    ensures Apply(o, op, now).raised <==>
              || (op.MarkSubmitting? && o.state != New)
              || (op.Reject? && o.state in {Partial, CancelPending})
              || (op.Execution? && Completing(o, op.quantity) && o.state in {New, Cancelled, Rejected, Expired})
  {
    if op.Execution? { AccumulateFrame(o, op.quantity, op.price); }
    hide Accumulate;
  }

  // ----- reservations

  lemma NonnegativeQuotient(f: real, d: real)
    requires 0.0 < d && 0.0 <= f * d
    ensures 0.0 <= f
  {
  }

  lemma QuotientBounds(n: real, quantity: real, d: real, f: real)
    requires 0.0 <= n <= quantity <= d && 0.0 < d && f * d == n
    ensures 0.0 <= f <= 1.0 && f * quantity <= n
  {
    NonnegativeQuotient(f, d);
    NonnegativeQuotient(1.0 - f, d);
    ProductOrder(quantity, d, f);
  }

  /** The fraction of a reservation that survives a fill. */
  lemma KeptFraction(o: ManagedOrder, quantity: real, price: real) returns (keep: real)
    requires 0.0 < o.request.quantity && 0.0 <= o.filledQty + quantity
    ensures var o' := Accumulate(o, quantity, price);
            && o'.reservedNotional == o.reservedNotional * keep && o'.reservedRisk == o.reservedRisk * keep
            && 0.0 <= keep <= 1.0 && keep * o.request.quantity <= Remaining(o')
  {
    var left, d := Left(o.request.quantity, o.filledQty + quantity), Max(o.request.quantity, TINY);
    keep := if left > 0.0 then left / d else 0.0;
    if left > 0.0 {
      QuotientBounds(left, o.request.quantity, d, keep);
    }
  }

  lemma ReservedAtMostInitial(reserved: real, quantity: real, initial: real, remaining: real)
    requires reserved * quantity <= initial * remaining && 0.0 < quantity && 0.0 <= initial && remaining <= quantity
    ensures reserved <= initial
  {
    ProductOrder(remaining, quantity, initial);
    assert (initial - reserved) * quantity == initial * quantity - reserved * quantity;
    NonnegativeQuotient(initial - reserved, quantity);
  }

  lemma ScaledReservation(reserved: real, quantity: real, initial: real, remaining: real, remaining': real, keep: real,
                          reserved': real)
    requires 0.0 <= reserved && reserved' == reserved * keep && reserved * quantity <= initial * remaining
    requires 0.0 < quantity
    requires remaining <= quantity && 0.0 <= remaining' && 0.0 <= initial
    requires 0.0 <= keep <= 1.0 && keep * quantity <= remaining'
    ensures 0.0 <= reserved' <= reserved && reserved' * quantity <= initial * remaining'
  {
    ReservedAtMostInitial(reserved, quantity, initial, remaining);
    ProductOrder(0.0, keep, reserved);
    ProductOrder(keep, 1.0, reserved);
    ProductOrder(keep * quantity, remaining', reserved);
    ProductOrder(reserved, initial, remaining');
    assert reserved' * quantity == (keep * quantity) * reserved;
  }

  lemma ZeroTimes(a: real, b: real, c: real)
    requires c == a * b
    ensures a == 0.0 ==> c == 0.0
  {
  }

  lemma FillKeepsReservation(o: ManagedOrder, quantity: real, price: real, initial: real)
    requires ReservationSound(o, initial) && 0.0 < o.request.quantity && 0.0 <= initial
    requires 0.0 <= o.filledQty && 0.0 <= quantity
    ensures ReservationSound(Accumulate(o, quantity, price), initial)
    ensures Accumulate(o, quantity, price).reservedNotional <= o.reservedNotional
  {
    hide Accumulate;
    AccumulateFrame(o, quantity, price);
    var keep := KeptFraction(o, quantity, price);
    var o' := Accumulate(o, quantity, price);
    ScaledReservation(o.reservedNotional, o.request.quantity, initial, Remaining(o), Remaining(o'), keep,
                      o'.reservedNotional);
    ZeroTimes(o.reservedRisk, keep, o'.reservedRisk);
    ZeroTimes(o.reservedNotional, keep, o'.reservedNotional);
  }

  /** Reservations only shrink, in step with what is left to fill, and are gone once the order is terminal. */
  lemma ApplyKeepsReservation(o: ManagedOrder, op: Op, now: Time, initial: real)
    requires ReservationSound(o, initial) && 0.0 < o.request.quantity && 0.0 <= initial
    requires 0.0 <= o.filledQty && (op.Execution? ==> 0.0 <= op.quantity)
    ensures ReservationSound(Apply(o, op, now).order, initial)
    ensures Apply(o, op, now).order.reservedNotional <= o.reservedNotional
  {
    if op.Execution? {
      AccumulateFrame(o, op.quantity, op.price);
      FillKeepsReservation(o, op.quantity, op.price, initial);
    }
    hide Accumulate;
    var o' := if op.Execution? then Accumulate(o, op.quantity, op.price) else o;
    assert 0.0 <= initial * Remaining(o') by {
      ProductOrder(0.0, Remaining(o'), initial);
    }
  }

  lemma Share(reserved: real, keep: real, quantity: real, left: real, reserved': real)
    requires keep * quantity == left && reserved' == reserved * keep
    ensures reserved' * quantity == reserved * left
  {
    assert (reserved * keep) * quantity == reserved * (keep * quantity);
  }

  /** The fraction kept is what is left of the whole order. */
  lemma FractionOf(o: ManagedOrder, quantity: real, price: real) returns (keep: real)
    requires TINY <= o.request.quantity
    ensures var o' := Accumulate(o, quantity, price);
            && o'.reservedNotional == o.reservedNotional * keep && o'.reservedRisk == o.reservedRisk * keep
            && keep * o.request.quantity == Remaining(o')
  {
    var left := Left(o.request.quantity, o.filledQty + quantity);
    keep := if left > 0.0 then left / o.request.quantity else 0.0;
    assert keep * o.request.quantity == left;
  }

  /** A fill keeps exactly the part of what was still reserved that the order still lacks of its whole quantity. */
  lemma FillReleases(o: ManagedOrder, quantity: real, price: real)
    requires TINY <= o.request.quantity
    ensures var o' := Accumulate(o, quantity, price);
            && o'.reservedNotional * o.request.quantity == o.reservedNotional * Remaining(o')
            && o'.reservedRisk * o.request.quantity == o.reservedRisk * Remaining(o')
  {
    hide Accumulate;
    var o' := Accumulate(o, quantity, price);
    var keep := FractionOf(o, quantity, price);
    Share(o.reservedNotional, keep, o.request.quantity, Remaining(o'), o'.reservedNotional);
    Share(o.reservedRisk, keep, o.request.quantity, Remaining(o'), o'.reservedRisk);
  }

  /** The deadline is the time to live after creation; without one, an order is never overdue. */
  lemma DueWhen(req: OrderRequest, reference: real, risk: real, ttl: Option<Time>, activation: Time, now: Time, t: Time)
    ensures var o := NewOrder(req, reference, risk, ttl, activation, now);
            && o.createdAt == Some(now) && (Overdue(o, t) <==> ttl.Some? && now + ttl.value <= t)
            && (o.activateAt.Some? <==> req.orderType.Market? && 0.0 < activation)
            && (o.activateAt.Some? ==> o.activateAt.value == now + activation)
  {
  }

  /** `create` reserves quantity times price, all of it for what is left to fill, and the given risk. */
  lemma CreationReserves(req: OrderRequest, reference: real, risk: real, ttl: Option<Time>, activation: Time, now: Time)
    requires 0.0 < req.quantity && 0.0 <= reference
    ensures var o := NewOrder(req, reference, risk, ttl, activation, now);
            && o.reservedNotional == req.quantity * reference && o.reservedRisk == risk
            && Remaining(o) == req.quantity && ReservationSound(o, req.quantity * reference)
  {
    ProductOrder(0.0, reference, req.quantity);
  }

  // ----- fills

  /** What the running average is worth after a fill, before the floor under the division matters. */
  lemma AverageOf(n: real, total: real, d: real, avg: real)
    requires d == Max(total, TINY) && 0.0 < total && avg * d == n
    ensures avg * total == n <==> total >= TINY || n == 0.0
  {
    if total < TINY {
      assert avg * (d - total) == n - avg * total;
      if avg * total == n {
        ZeroFactor(avg, d - total);
      } else if n == 0.0 {
        ZeroFactor(avg, d);
      }
    }
  }

  lemma ZeroFactor(a: real, b: real)
    requires a * b == 0.0 && b > 0.0
    ensures a == 0.0
  {
  }

  /** The running average is exact after a fill if and only if the filled quantity has outgrown the floor. */
  lemma AverageExact(o: ManagedOrder, quantity: real, price: real)
    requires 0.0 <= o.filledQty && 0.0 < quantity
    ensures var o' := Accumulate(o, quantity, price);
            o'.avgFillPrice * o'.filledQty == o.avgFillPrice * o.filledQty + price * quantity
            <==> o'.filledQty >= TINY || o.avgFillPrice * o.filledQty + price * quantity == 0.0
  {
    var n, total := o.avgFillPrice * o.filledQty + price * quantity, o.filledQty + quantity;
    AverageOf(n, total, Max(total, TINY), n / Max(total, TINY));
  }

  lemma ApplyKeepsFills(o: ManagedOrder, op: Op, now: Time, fills: Executions)
    requires FillsSound(o, fills) && (op.Execution? ==> TINY <= op.quantity)
    ensures FillsSound(Apply(o, op, now).order, Recorded(fills, op))
  {
    if op.Execution? {
      AccumulateFrame(o, op.quantity, op.price);
      AverageExact(o, op.quantity, op.price);
      var f := Recorded(fills, op);
      assert f[..|f| - 1] == fills;
    }
    hide Accumulate;
  }

  /** Nothing rewrites the request or the deadline, and nothing takes filled quantity back. */
  lemma ApplyFrame(o: ManagedOrder, op: Op, now: Time)
    ensures var o' := Apply(o, op, now).order;
            && o'.request == o.request && o'.expireAt == o.expireAt
            && o'.filledQty == o.filledQty + (if op.Execution? then op.quantity else 0.0)
  {
    if op.Execution? {
      AccumulateFrame(o, op.quantity, op.price);
    }
    hide Accumulate;
  }
}
