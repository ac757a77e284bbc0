/** One symbol's state machine over any sequence of evaluations and lifecycle callbacks. */
module FsmRuns {
  import opened Wrappers
  import opened RealMath
  import opened Models
  import opened Fsm

  datatype Event =
    | Steps(f: Feature, action: GovernorAction, trace: string)
    | EntryFills(ts: Time)
    | EntryFails(ts: Time)
    | Closes(ts: Time)

  /**
   The track, the clock, the last evaluation, the evaluations of the current episode from its impulse on, and
   the time of the last signal.
   */
  datatype Watch = Watch(track: Track, clock: Time, lastStep: Time, episode: seq<(Feature, GovernorAction)>,
                         lastSignal: Option<Time>)

  function Episode(t: Track, t': Track, episode: seq<(Feature, GovernorAction)>, f: Feature,
                   action: GovernorAction): seq<(Feature, GovernorAction)> {
    if Armed(t.state) then episode + [(f, action)] else if Armed(t'.state) then [(f, action)] else episode
  }

  function Next(c: Config, w: Watch, e: Event): Watch {
    match e
    case Steps(f, action, trace) =>
      var (t, sig) := StepTrack(c, w.track, f, action, trace);
      Watch(t, f.ts, f.ts, Episode(w.track, t, w.episode, f, action), if sig.Some? then Some(f.ts) else w.lastSignal)
    case EntryFills(ts) => w.(track := EntryFilled(w.track, ts))
    case EntryFails(ts) => w.(track := EntryFailed(c, w.track, ts), clock := ts)
    case Closes(ts) => w.(track := Closed(c, w.track, ts), clock := ts)
  }

  /** Time does not run backwards, and while armed the next evaluation comes within `gap`. */
  predicate Timely(w: Watch, gap: Time, e: Event) {
    match e
    case Steps(f, _, _) =>
      w.clock <= f.ts && w.lastStep <= f.ts && (Armed(w.track.state) ==> f.ts <= w.lastStep + gap)
    case EntryFills(_) => true
    case EntryFails(ts) => w.clock <= ts
    case Closes(ts) => w.clock <= ts
  }

  // ----- the way to a signal

  const PATH := [Idle, Impulse, ConfirmWait, Exhaustion, FailedRetest, SState.Entry]

  function Depth(s: SState): nat {
    match s
    case Impulse => 1
    case ConfirmWait => 2
    case Exhaustion => 3
    case FailedRetest => 4
    case _ => 0
  }

  function Least(c: Config, i: nat): Time { if i == 2 then c.confirmWait else 0.0 }

  function Most(c: Config, gap: Time, i: nat): Time {
    if i == 1 then c.impulseTimeout
    else if i == 2 then Max(c.impulseTimeout, c.confirmWait) + gap
    else if i == 3 then c.exhaustionTimeout
    else c.retestTimeout
  }

  /** The i-th edge after position b of a history follows the path, in time. */
  ghost predicate Leg(c: Config, gap: Time, h: seq<Edge>, b: nat, i: nat)
    requires b + i < |h| && i < 5
  {
    && h[b + i].from == PATH[i] && h[b + i].to == PATH[i + 1]
    && (i > 0 ==> h[b + i - 1].ts + Least(c, i) <= h[b + i].ts <= h[b + i - 1].ts + Most(c, gap, i))
  }

  ghost predicate Legs(c: Config, gap: Time, h: seq<Edge>, b: nat, d: nat) {
    d <= 5 && b + d <= |h| && forall i: nat :: i < d ==> Leg(c, gap, h, b, i)
  }

  /** The last d edges of a history are the first d of the path. */
  ghost predicate Walked(c: Config, gap: Time, h: seq<Edge>, d: nat) {
    d <= |h| && Legs(c, gap, h, |h| - d, d)
  }

  lemma WalkOn(c: Config, gap: Time, h: seq<Edge>, d: nat, e: Edge)
    requires Walked(c, gap, h, d) && 1 <= d < 5 && e.from == PATH[d] && e.to == PATH[d + 1]
    requires h[|h| - 1].ts + Least(c, d) <= e.ts <= h[|h| - 1].ts + Most(c, gap, d)
    ensures Walked(c, gap, h + [e], d + 1)
  {
    var h', b := h + [e], |h| - d;
    assert |h'| - (d + 1) == b;
    forall i: nat | i < d + 1 ensures Leg(c, gap, h', b, i) {
      if i < d {
        assert Leg(c, gap, h, b, i);
        assert h'[b + i] == h[b + i] && (i > 0 ==> h'[b + i - 1] == h[b + i - 1]);
      } else {
        assert h'[b + i] == e && h'[b + i - 1] == h[|h| - 1];
      }
    }
  }

  ghost predicate OnPath(c: Config, gap: Time, w: Watch) {
    var t, d := w.track, Depth(w.track.state);
    Armed(t.state) ==>
      && Walked(c, gap, t.history, d) && t.impulseStart.Some? && t.enteredAt.Some?
      && t.history[|t.history| - d].ts == t.impulseStart.value
      && t.history[|t.history| - 1].ts == t.enteredAt.value
      && t.impulseStart.value <= w.lastStep && t.enteredAt.value <= w.lastStep <= w.clock
      && (t.state == ConfirmWait ==> w.lastStep <= t.enteredAt.value + Max(c.impulseTimeout, c.confirmWait))
  }

  predicate Sane(c: Config, gap: Time) {
    && 0.0 <= gap && 0.0 <= c.confirmWait && 0.0 <= c.impulseTimeout && 0.0 <= c.exhaustionTimeout
    && 0.0 <= c.retestTimeout && 0.0 <= c.cooldown
  }

  /** An evaluation of an armed track steps on along the path, stays, or falls back to idle. */
  lemma AdvanceShape(c: Config, t: Track, f: Feature, action: GovernorAction, trace: string)
    requires Armed(t.state) && t.enteredAt.Some? && t.direction in {1.0, -1.0}
    ensures var (t', sig) := StepTrack(c, t, f, action, trace);
            var d, dwell := Depth(t.state), f.ts - t.enteredAt.value;
            && t'.impulseStart == t.impulseStart && t'.direction == t.direction
            && (t'.state != t.state ==> t'.enteredAt == Some(f.ts) && t'.history == t.history + [Edge(t.state, t'.state,
                                                                                                      f.ts)])
            && (t'.state == t.state ==> t'.enteredAt == t.enteredAt && t'.history == t.history)
            && (t'.state != t.state && t'.state != Idle ==>
                  && t'.state == PATH[d + 1] && !action.NoTrade?
                  && (t.state == Impulse ==> dwell <= c.impulseTimeout)
                  && (t.state == ConfirmWait ==> c.confirmWait <= dwell)
                  && (t.state == Exhaustion ==> dwell <= c.exhaustionTimeout)
                  && (t.state == FailedRetest ==> dwell <= c.retestTimeout))
            && (t'.state == t.state == ConfirmWait ==> dwell <= Max(c.impulseTimeout, c.confirmWait))
            && (t'.state == t.state ==> !action.NoTrade?)
            && (sig.Some? <==> t'.state == SState.Entry)
            && (sig.Some? ==> sig == Some(SignalOf(c, Follow(t, f), f, trace)) && !action.NoTrade?)
            && (t'.state == t.state || t'.state != Idle ==>
                  t'.extreme == Follow(t, f).extreme && t'.peakZ == Follow(t, f).peakZ)
  {
    hide Follow, SignalOf, NearExtreme, Exhausted, BookAgainst, PeersConfirmedFast;
    FollowFrame(t, f);
    assert PATH[2] == ConfirmWait && PATH[3] == Exhaustion && PATH[4] == FailedRetest && PATH[5] == SState.Entry;
  }

  lemma FollowFrame(t: Track, f: Feature)
    ensures var t' := Follow(t, f);
            && t'.state == t.state && t'.direction == t.direction && t'.enteredAt == t.enteredAt
            && t'.impulseStart == t.impulseStart && t'.history == t.history
            && t'.direction * (f.mid - t'.extreme) <= 0.0
  {
  }

  // ----- running extremes

  ghost predicate Bounded(t: Track, episode: seq<(Feature, GovernorAction)>) {
    && episode != []
    && (forall e :: e in episode ==>
          && t.direction * (t.extreme - e.0.mid) >= 0.0 && Abs(e.0.residualZ) <= t.peakZ && !e.1.NoTrade?)
    && (exists e :: e in episode && e.0.mid == t.extreme)
  }

  ghost predicate ExtremesKept(c: Config, w: Watch) {
    Armed(w.track.state) ==>
      w.track.direction in {1.0, -1.0} && c.impulseZ <= w.track.peakZ && Bounded(w.track, w.episode)
  }

  lemma FollowBounds(t: Track, episode: seq<(Feature, GovernorAction)>, f: Feature, action: GovernorAction)
    requires t.direction in {1.0, -1.0} && Bounded(t, episode) && !action.NoTrade?
    ensures Bounded(Follow(t, f), episode + [(f, action)])
    ensures t.peakZ <= Follow(t, f).peakZ
  {
    var t', all := Follow(t, f), episode + [(f, action)];
    if t'.extreme == f.mid {
      assert (f, action) in all;
    } else {
      var e :| e in episode && e.0.mid == t.extreme;
      assert e in all;
    }
  }

  lemma BoundedSame(t: Track, t': Track, episode: seq<(Feature, GovernorAction)>)
    requires Bounded(t, episode) && t'.direction == t.direction && t'.extreme == t.extreme && t'.peakZ == t.peakZ
    ensures Bounded(t', episode)
  {
  }

  // ----- spacing of signals

  ghost predicate Spaced(c: Config, w: Watch) {
    w.lastSignal.Some? ==>
      var earliest := w.lastSignal.value + c.cooldown / 2.0;
      && w.lastSignal.value <= w.clock
      && match w.track.state
         case Idle => earliest <= w.clock
         case Cooldown => w.track.cooldownUntil.Some? && earliest <= w.track.cooldownUntil.value
         case Entry => true
         case Manage => true
         case Exit => true
         case _ => w.track.impulseStart.Some? && earliest <= w.track.impulseStart.value
  }

  ghost predicate Sound(c: Config, gap: Time, w: Watch) {
    OnPath(c, gap, w) && ExtremesKept(c, w) && Spaced(c, w)
  }

  // ----- one event

  lemma StepOnPath(c: Config, gap: Time, w: Watch, e: Event)
    requires Sound(c, gap, w) && Sane(c, gap) && e.Steps? && Timely(w, gap, e) && Armed(w.track.state)
    ensures OnPath(c, gap, Next(c, w, e))
    ensures var t := Next(c, w, e).track;
            t.state == SState.Entry ==> Walked(c, gap, t.history,
                                               5) && t.history[|t.history| - 5].ts == w.track.impulseStart.value
  {
    var t, d := w.track, Depth(w.track.state);
    AdvanceShape(c, t, e.f, e.action, e.trace);
    var t' := StepTrack(c, t, e.f, e.action, e.trace).0;
    hide StepTrack, Bounded, Leg;
    if t'.state != t.state && t'.state != Idle {
      assert PATH[d] == t.state;
      WalkOn(c, gap, t.history, d, Edge(t.state, t'.state, e.f.ts));
    }
    hide Walked;
  }

  lemma StepKeepsExtremes(c: Config, gap: Time, w: Watch, e: Event)
    requires Sound(c, gap, w) && e.Steps? && Armed(w.track.state)
    ensures ExtremesKept(c, Next(c, w, e))
  {
    var t := w.track;
    AdvanceShape(c, t, e.f, e.action, e.trace);
    var t' := StepTrack(c, t, e.f, e.action, e.trace).0;
    hide StepTrack, Bounded, Walked, SignalOf, Follow;
    if t'.state == t.state || t'.state != Idle {
      FollowBounds(t, w.episode, e.f, e.action);
      FollowDirection(t, e.f);
      BoundedSame(Follow(t, e.f), t', w.episode + [(e.f, e.action)]);
    }
  }

  lemma FollowDirection(t: Track, f: Feature)
    ensures Follow(t, f).direction == t.direction
  {
  }

  /** Arming starts a path, an episode and its extremes. */
  lemma ArmSound(c: Config, gap: Time, w: Watch, e: Event)
    requires Sound(c, gap, w) && Sane(c, gap) && e.Steps? && Timely(w, gap, e) && w.track.state == Idle
    ensures Sound(c, gap, Next(c, w, e))
  {
    var t := w.track;
    if !e.action.NoTrade? && ImpulseSeen(c, e.f) {
      var t' := Arm(t, e.f);
      assert t'.history[|t'.history| - 1] == Edge(Idle, Impulse, e.f.ts);
      assert Walked(c, gap, t'.history, 1) by {
        assert Leg(c, gap, t'.history, |t'.history| - 1, 0);
      }
      assert (e.f, e.action) in [(e.f, e.action)];
      assert Bounded(t', [(e.f, e.action)]);
    }
    hide Walked, Bounded;
  }

  lemma StepSpaced(c: Config, gap: Time, w: Watch, e: Event)
    requires Sound(c, gap, w) && Sane(c, gap) && e.Steps? && Timely(w, gap, e) && Armed(w.track.state)
    ensures Spaced(c, Next(c, w, e))
  {
    AdvanceShape(c, w.track, e.f, e.action, e.trace);
    hide StepTrack, Walked, Bounded, SignalOf, Follow;
  }

  lemma QuietSound(c: Config, gap: Time, w: Watch, e: Event)
    requires Sound(c, gap, w) && Sane(c, gap) && Timely(w, gap, e)
    requires !e.Steps? || w.track.state in {Cooldown, SState.Entry, Manage, SState.Exit}
    ensures Sound(c, gap, Next(c, w, e))
  {
    hide Walked, Bounded, Advance;
  }

  lemma NextSound(c: Config, gap: Time, w: Watch, e: Event)
    requires Sound(c, gap, w) && Sane(c, gap) && Timely(w, gap, e)
    ensures Sound(c, gap, Next(c, w, e))
  {
    if e.Steps? && Armed(w.track.state) {
      StepOnPath(c, gap, w, e);
      StepKeepsExtremes(c, gap, w, e);
      StepSpaced(c, gap, w, e);
    } else if e.Steps? && w.track.state == Idle {
      ArmSound(c, gap, w, e);
    } else {
      QuietSound(c, gap, w, e);
    }
    hide Next, OnPath, ExtremesKept, Spaced;
  }

  ghost predicate Run(c: Config, gap: Time, w: Watch, events: seq<Event>, w': Watch)
    decreases |events|
  {
    if events == [] then w' == w
    else Timely(w, gap, events[0]) && Run(c, gap, Next(c, w, events[0]), events[1..], w')
  }

  lemma {:induction false} RunSound(c: Config, gap: Time, w: Watch, events: seq<Event>, w': Watch)
    requires Sound(c, gap, w) && Sane(c, gap) && Run(c, gap, w, events, w')
    ensures Sound(c, gap, w')
    decreases |events|
  {
    hide Sound, Next;
    if events != [] {
      NextSound(c, gap, w, events[0]);
      RunSound(c, gap, Next(c, w, events[0]), events[1..], w');
    }
  }

  /** Before the first evaluation of a symbol. */
  function Begin(t0: Time): Watch { Watch(Unseen, t0, t0, [], None) }

  // ----- the theorems about signals

  /** The state machine emits a signal on this evaluation. */
  function Emitted(c: Config, w: Watch, e: Event): Option<Signal> {
    if e.Steps? then StepTrack(c, w.track, e.f, e.action, e.trace).1 else None
  }

  lemma EmitsOnlyWhenArmed(c: Config, w: Watch, e: Event)
    ensures Emitted(c, w, e).Some? ==> e.Steps? && Armed(w.track.state)
  {
    hide Advance;
  }

  /** The five edges that end in a signal, the first of them at the given time. */
  predicate EndsPath(h: seq<Edge>, start: Time) {
    && 5 <= |h|
    && var n := |h|;
       && h[n - 5] == Edge(Idle, Impulse, start)
       && h[n - 4].from == Impulse && h[n - 4].to == ConfirmWait
       && h[n - 3].from == ConfirmWait && h[n - 3].to == Exhaustion
       && h[n - 2].from == Exhaustion && h[n - 2].to == FailedRetest
       && h[n - 1].from == FailedRetest && h[n - 1].to == SState.Entry
  }

  function Longest(c: Config, gap: Time): Time {
    c.impulseTimeout + (Max(c.impulseTimeout, c.confirmWait) + gap) + c.exhaustionTimeout + c.retestTimeout
  }

  /** Ages add up along the path. */
  lemma PathAge(c: Config, gap: Time, h: seq<Edge>)
    requires Walked(c, gap, h, 5)
    ensures EndsPath(h, h[|h| - 5].ts) && c.confirmWait <= h[|h| - 1].ts - h[|h| - 5].ts <= Longest(c, gap)
  {
    var b: nat := |h| - 5;
    assert Legs(c, gap, h, b, 5);
    hide Walked, Legs;
    LegAt(c, gap, h, b, 0);
    LegAt(c, gap, h, b, 1);
    LegAt(c, gap, h, b, 2);
    LegAt(c, gap, h, b, 3);
    LegAt(c, gap, h, b, 4);
  }

  lemma LegAt(c: Config, gap: Time, h: seq<Edge>, b: nat, i: nat)
    requires Legs(c, gap, h, b, 5) && i < 5
    ensures b + i < |h| && Leg(c, gap, h, b, i)
  {
  }

  /**
   Every signal ends the five edges from idle to entry, with no evaluation since the impulse under a governor
   that forbids trading; its age lies between the confirmation wait and the sum of the dwell limits; and it
   comes at least half a cooldown and a confirmation wait after the signal before it.
   */
  lemma SignalTiming(c: Config, gap: Time, t0: Time, events: seq<Event>, w: Watch, e: Event)
    requires Sane(c, gap) && Run(c, gap, Begin(t0), events, w) && Timely(w, gap, e) && Emitted(c, w, e).Some?
    ensures w.track.impulseStart.Some?
    ensures var w', start := Next(c, w, e), w.track.impulseStart.value;
            var ts := Emitted(c, w, e).value.ts;
            && EndsPath(w'.track.history, start)
            && (forall s :: s in w'.episode ==> !s.1.NoTrade?)
            && c.confirmWait <= ts - start <= Longest(c, gap)
            && (w.lastSignal.Some? ==> w.lastSignal.value + c.cooldown / 2.0 + c.confirmWait <= ts)
  {
    assert Sound(c, gap, Begin(t0));
    RunSound(c, gap, Begin(t0), events, w);
    hide Run;
    EmitsOnlyWhenArmed(c, w, e);
    AdvanceShape(c, w.track, e.f, e.action, e.trace);
    StepOnPath(c, gap, w, e);
    PathAge(c, gap, Next(c, w, e).track.history);
    hide StepTrack, Walked, Follow, StopPrice, TargetPrice, EndsPath, Longest;
  }

  lemma StopBeyond(extreme: real, direction: real, bps: real, mid: real)
    requires direction in {1.0, -1.0} && 0.0 < extreme && 0.0 < bps && direction * (extreme - mid) >= 0.0
    ensures direction * (extreme * (1.0 + direction * bps / 10000.0) - mid) > 0.0
  {
    var move := extreme * (bps / 10000.0);
    assert move > 0.0;
    if direction == 1.0 {
      assert extreme * (1.0 + direction * bps / 10000.0) == extreme + move;
    } else {
      assert extreme * (1.0 + direction * bps / 10000.0) == extreme - move;
    }
  }

  lemma TargetInside(mid: real, direction: real, reversion: real)
    requires direction in {1.0, -1.0} && 0.0 < mid && 0.0 <= reversion
    ensures direction * (mid * (1.0 - direction * reversion) - mid) <= 0.0
  {
    var move := mid * reversion;
    assert move >= 0.0;
    if direction == 1.0 {
      assert mid * (1.0 - direction * reversion) == mid - move;
    } else {
      assert mid * (1.0 - direction * reversion) == mid + move;
    }
  }

  lemma ReversionSign(r: real, k: real)
    requires 0.0 <= k
    ensures 0.0 <= Abs(r) * k
  {
  }

  /** A sell stops above and takes profit below; a buy the other way round. */
  predicate Beyond(side: Side, level: real, price: real) { if side.Sell? then level > price else level < price }

  /**
   Every signal fades the burst: its stop is strictly beyond every price seen since the impulse, its target is
   not beyond its reference price on that side, and its score is the largest residual seen, at least the
   impulse threshold.
   */
  lemma SignalLevels(c: Config, gap: Time, t0: Time, events: seq<Event>, w: Watch, e: Event)
    requires Sane(c, gap) && Run(c, gap, Begin(t0), events, w) && Timely(w, gap, e) && Emitted(c, w, e).Some?
    requires 0.0 < c.stopBps && 0.0 <= c.targetReversion && 0.0 < e.f.mid
    requires forall s :: s in w.episode ==> 0.0 < s.0.mid
    ensures var sig, w' := Emitted(c, w, e).value, Next(c, w, e);
            && (forall s :: s in w'.episode ==> Beyond(sig.side, sig.stop, s.0.mid) && Abs(s.0.residualZ) <= sig.score)
            && !Beyond(sig.side, sig.target, sig.reference)
            && c.impulseZ <= sig.score
            && sig.reference == e.f.mid && (e.f, e.action) in w'.episode
  {
    assert Sound(c, gap, Begin(t0));
    RunSound(c, gap, Begin(t0), events, w);
    hide Run, Walked, StepTrack, Follow, Bounded;
    EmitsOnlyWhenArmed(c, w, e);
    AdvanceShape(c, w.track, e.f, e.action, e.trace);
    FollowBounds(w.track, w.episode, e.f, e.action);
    FollowFrame(w.track, e.f);
    var all := w.episode + [(e.f, e.action)];
    assert all[|all| - 1] == (e.f, e.action);
    assert forall s :: s in all ==> 0.0 < s.0.mid;
    LevelsBeyond(c, Follow(w.track, e.f), all, e.f, e.trace);
    hide SignalOf;
  }

  lemma LevelsBeyond(c: Config, t: Track, all: seq<(Feature, GovernorAction)>, f: Feature, trace: string)
    requires Bounded(t, all) && t.direction in {1.0, -1.0} && 0.0 < c.stopBps && 0.0 <= c.targetReversion && 0.0 < f.mid
    requires forall s :: s in all ==> 0.0 < s.0.mid
    ensures var sig := SignalOf(c, t, f, trace);
            && (forall s :: s in all ==> Beyond(sig.side, sig.stop, s.0.mid) && Abs(s.0.residualZ) <= sig.score)
            && !Beyond(sig.side, sig.target, sig.reference)
            && sig.score == t.peakZ && sig.reference == f.mid
  {
    var peak :| peak in all && peak.0.mid == t.extreme;
    assert 0.0 < t.extreme;
    var sig := SignalOf(c, t, f, trace);
    forall s | s in all ensures Beyond(sig.side, sig.stop, s.0.mid) {
      StopBeyond(t.extreme, t.direction, c.stopBps, s.0.mid);
    }
    ReversionSign(f.residualReturn, c.targetReversion);
    TargetInside(f.mid, t.direction, Abs(f.residualReturn) * c.targetReversion);
    hide StopPrice, TargetPrice;
  }
}
