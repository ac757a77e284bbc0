/** What manager and venue know of one order, and that each step of either keeps the two in agreement. */
module Agreement {
  import opened Wrappers
  import opened RealMath
  import opened Models
  import opened Orders
  import opened OrderManagement
  import opened Protocol
  import V = Venue
  import VR = VenueRuns

  // ----- one order on both sides

  /**
   What the two sides know of one order after the tick at time `tick`, ticks being at most `gap` apart and no
   cancel having been sent after time `sent`.
   The venue's copy, if it is still working, has the same request and the same filled quantity, and the
   manager has not closed the order (a filled fill-or-kill order excepted).  Before the acknowledgement the
   deadline is still more than a tick away.  An order the venue no longer works is closed, or is an
   unacknowledged order without fills whose immediate cancel arrived too early to be understood.
   */
  ghost predicate Agree(cfg: V.Config, gap: Time, tick: Time, sent: Time, o: ManagedOrder, w: Option<Working>) {
    match w
    case None => Terminal(o.state) || (o.state == Submitting && o.filledQty == 0.0)
    case Some(w) =>
      && w.req == o.request && VR.Placed(w) && VR.Unfinished(w) && w.filled == o.filledQty && o.state != New
      && (if Terminal(o.state) then w.tif.Fok? && o.state == Filled && Remaining(o) <= DUST else Remaining(o) > DUST)
      && (o.state == Submitting ==> o.filledQty == 0.0 && !w.acked && w.cancelAt.None? && BeforeDeadline(gap, tick, o,
                                                                                                         w))
      && (o.state == CancelPending ==> w.cancelAt.Some?)
      && (w.cancelAt.Some? ==> w.cancelAt.value <= sent + cfg.cancelLatency)
  }

  ghost predicate BeforeDeadline(gap: Time, tick: Time, o: ManagedOrder, w: Working) {
    o.expireAt.Some? ==> tick + gap < o.expireAt.value && w.ackAt + gap <= o.expireAt.value
  }

  /** A fill completes an open order or leaves it partially filled; it is never refused. */
  lemma FillOn(o: ManagedOrder, ev: V.VenueEvent, now: Time)
    requires ev.Fills? && o.state != New
    requires Terminal(o.state) ==> o.state == Filled && Left(o.request.quantity, o.filledQty + ev.fill.quantity) <= DUST
    ensures var (o', raised) := EventOn(o, ev, now);
            !raised && o'.state == if Left(o.request.quantity,
                                           o.filledQty + ev.fill.quantity) <= DUST then Filled else Partial
  {
    AccumulateFrame(o, ev.fill.quantity, ev.fill.price);
    hide Accumulate;
  }

  lemma AckOn(o: ManagedOrder, ev: V.VenueEvent, now: Time)
    requires ev.Acked?
    ensures var (o', raised) := EventOn(o, ev, now);
            !raised && o'.state == if o.state == Submitting then Acknowledged else o.state
  {
  }

  lemma CancelAckOn(o: ManagedOrder, ev: V.VenueEvent, now: Time)
    requires ev.CancelAcked?
    ensures var (o', raised) := EventOn(o, ev, now);
            !raised && o'.state == if o.state in {Acknowledged, Partial, CancelPending} then Cancelled else o.state
  {
  }

  lemma EventsOnOne(o: ManagedOrder, ev: V.VenueEvent, now: Time)
    ensures EventsOn(o, [ev], now) == EventOn(o, ev, now)
  {
    hide EventOn;
    assert [ev][1..] == [];
    assert forall o' :: EventsOn(o', [], now) == (o', false);
  }

  lemma EventsOnTwo(o: ManagedOrder, ev: V.VenueEvent, ev': V.VenueEvent, now: Time)
    requires !EventOn(o, ev, now).1
    ensures EventsOn(o, [ev, ev'], now) == EventOn(EventOn(o, ev, now).0, ev', now)
  {
    hide EventOn;
    assert [ev, ev'][1..] == [ev'];
    EventsOnOne(EventOn(o, ev, now).0, ev', now);
  }

  /** What an input may do to one order on both sides, besides keeping the agreement. */
  ghost predicate Followed(input: V.Input, now: Time, o: ManagedOrder, w: Option<Working>, o': ManagedOrder,
                           w': Option<Working>) {
    && o'.request == o.request && o'.expireAt == o.expireAt
    && (Terminal(o.state) ==> Terminal(o'.state))
    && (w.Some? && w'.None? && o.state != Submitting ==> Terminal(o'.state))
    && (w'.Some? ==> w.Some? && w'.value.cancelAt == w.value.cancelAt)
    && (input.PollIn? && w'.Some? ==> w'.value.acked || now < w'.value.ackAt)
    && (input.PollIn? && w'.Some? && w'.value.cancelAt.Some? ==> now < w'.value.cancelAt.value)
  }

  /** A reaction of the right shape that reports nothing, or one thing. */
  lemma OneEventAgrees(cfg: V.Config, gap: Time, tick: Time, sent: Time, o: ManagedOrder, w: Working, r: V.Reaction,
                       input: V.Input, now: Time)
    requires Agree(cfg, gap, tick, sent, o, Some(w)) && VR.Shaped(w, r, input, now) && VR.Accounted(w, r, now)
    requires |r.events| <= 1
    ensures var (o', raised) := EventsOn(o, r.events, now);
            !raised && Agree(cfg, gap, tick, sent, o', r.order) && Followed(input, now, o, Some(w), o', r.order)
  {
    hide EventOn, EventsOn, VR.Placed, VR.AtLimitOrBetter;
    if r.events == [] {
      NoEvents(o, now);
    } else {
      var ev := r.events[0];
      assert r.events == [ev];
      EventsOnOne(o, ev, now);
      EventOnFrame(o, ev, now);
      if ev.Fills? {
        assert VR.Executed(r) == Some(ev.fill);
        FillOn(o, ev, now);
      } else if ev.Acked? {
        AckOn(o, ev, now);
      } else {
        CancelAckOn(o, ev, now);
      }
    }
  }

  /** A reaction whose last word, after a fill or an acknowledgement, is a cancel acknowledgement. */
  lemma TwoEventsAgree(cfg: V.Config, gap: Time, tick: Time, sent: Time, o: ManagedOrder, w: Working, r: V.Reaction,
                       input: V.Input, now: Time)
    requires Agree(cfg, gap, tick, sent, o, Some(w)) && VR.Shaped(w, r, input, now) && VR.Accounted(w, r, now)
    requires |r.events| == 2
    ensures var (o', raised) := EventsOn(o, r.events, now);
            !raised && Agree(cfg, gap, tick, sent, o', r.order) && Followed(input, now, o, Some(w), o', r.order)
  {
    hide EventOn, EventsOn, VR.Placed, VR.AtLimitOrBetter;
    var ev, ev' := r.events[0], r.events[1];
    assert r.events == [ev, ev'];
    EventOnFrame(o, ev, now);
    if ev.Fills? {
      assert VR.Executed(r) == Some(ev.fill);
      FillOn(o, ev, now);
    } else {
      AckOn(o, ev, now);
    }
    var o1 := EventOn(o, ev, now).0;
    EventOnFrame(o1, ev', now);
    CancelAckOn(o1, ev', now);
    EventsOnTwo(o, ev, ev', now);
  }

  /** Whatever the venue does with an order, the manager accepts it and the two still agree. */
  lemma ReactAgrees(cfg: V.Config, gap: Time, tick: Time, sent: Time, o: ManagedOrder, w: Working, input: V.Input,
                    now: Time)
    requires Agree(cfg, gap, tick, sent, o, Some(w)) && 0.0 <= cfg.minShares
    ensures var r := V.React(cfg, w, input, now);
            var (o', raised) := EventsOn(o, r.events, now);
            !raised && Agree(cfg, gap, tick, sent, o', r.order) && Followed(input, now, o, Some(w), o', r.order)
  {
    var r := V.React(cfg, w, input, now);
    VR.ReactShaped(cfg, w, input, now);
    VR.ReactAccounted(cfg, w, input, now);
    assert |r.events| <= 2;
    hide V.React, EventsOn, VR.Accounted, VR.Shaped, Followed, Agree;
    if |r.events| == 2 {
      TwoEventsAgree(cfg, gap, tick, sent, o, w, r, input, now);
    } else {
      OneEventAgrees(cfg, gap, tick, sent, o, w, r, input, now);
    }
  }

  lemma NoEvents(o: ManagedOrder, now: Time)
    ensures EventsOn(o, [], now) == (o, false)
  {
  }

  // ----- the timer sweep, order by order

  /** What the sweep and the cancels it sends do to one order on both sides. */
  function SweptOrder(o: ManagedOrder, now: Time): ManagedOrder { Apply(o, Ttl, now).order }

  function SweptWorking(cfg: V.Config, o: ManagedOrder, w: Option<Working>, now: Time): Option<Working> {
    if w.Some? && SweptToCancel(o, now) && w.value.cancelAt.None?
    then Some(w.value.(cancelAt := Some(now + cfg.cancelLatency))) else w
  }

  /** The sweep keeps the agreement as long as it comes within `gap` of the tick before it. */
  lemma SweepAgrees(cfg: V.Config, gap: Time, tick: Time, o: ManagedOrder, w: Option<Working>, now: Time)
    requires Agree(cfg, gap, tick, tick, o, w) && tick <= now <= tick + gap
    ensures Agree(cfg, gap, tick, now, SweptOrder(o, now), SweptWorking(cfg, o, w, now))
  {
    ApplyFrame(o, Ttl, now);
    hide Accumulate, VR.AtLimitOrBetter;
  }

  /** A poll has delivered every acknowledgement that was due, so the next tick still precedes the deadline. */
  lemma PollSettles(cfg: V.Config, gap: Time, tick: Time, now: Time, o: ManagedOrder, w: Option<Working>)
    requires Agree(cfg, gap, tick, now, o, w) && (w.Some? ==> w.value.acked || now < w.value.ackAt)
    ensures Agree(cfg, gap, now, now, o, w)
  {
    hide VR.Placed;
  }

  // ----- all orders

  function CancelAll(cfg: V.Config, working: V.WorkingMap, coids: seq<string>, now: Time): V.WorkingMap
    decreases |coids|
  {
    if coids == [] then working else CancelAll(cfg, V.Cancelled(cfg, working, coids[0], now), coids[1..], now)
  }

  lemma {:induction false} CancelAllPointwise(cfg: V.Config, working: V.WorkingMap, coids: seq<string>, now: Time)
    ensures var working' := CancelAll(cfg, working, coids, now);
            && working'.Keys == working.Keys
            && forall c :: c in working ==>
                 working'[c] == if c in coids && working[c].cancelAt.None?
                                then working[c].(cancelAt := Some(now + cfg.cancelLatency)) else working[c]
    decreases |coids|
  {
    if coids != [] {
      CancelAllPointwise(cfg, V.Cancelled(cfg, working, coids[0], now), coids[1..], now);
    }
  }

  lemma {:induction false} SweepPointwise(b: Book, ids: seq<string>, now: Time)
    requires WellFormed(b) && Distinct(ids) && forall c :: c in ids ==> c in b.orders
    ensures var (b', cancels) := Sweep(b, ids, now);
            && WellFormed(b') && b'.ids == b.ids && b'.orders.Keys == b.orders.Keys
            && (forall c :: c in b.orders ==> b'.orders[c] == if c in ids then SweptOrder(b.orders[c],
                                                                                          now) else b.orders[c])
            && (forall c :: c in cancels <==> c in ids && SweptToCancel(b.orders[c], now))
    decreases |ids|
  {
    hide Apply, WellFormed, SweptToCancel;
    if ids != [] {
      var c0, rest := ids[0], ids[1..];
      assert ids == [c0] + rest;
      DoChangesOnly(b, c0, Ttl, now);
      hide Do;
      SweepPointwise(Do(b, c0, Ttl, now).book, rest, now);
    }
  }

  ghost predicate AgreeAll(cfg: V.Config, gap: Time, tick: Time, sent: Time, b: Book, working: V.WorkingMap) {
    Known(b, working) && forall c :: c in b.orders ==> Agree(cfg, gap, tick, sent, b.orders[c], Look(working, c))
  }
}
