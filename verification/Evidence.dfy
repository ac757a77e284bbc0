/** What a signal rests on: the impulse it fades, the evidence collected since, and the exact levels it sets. */
module Evidence {
  import opened Wrappers
  import opened RealMath
  import opened Models
  import opened Fsm
  import opened FsmRuns
  import T = Retests

  type Evaluations = seq<(Feature, GovernorAction)>

  /** The burst ran up if its impulse had a positive residual, and down otherwise. */
  function Heading(episode: Evaluations): real
    requires episode != []
  {
    if episode[0].0.residualZ > 0.0 then 1.0 else -1.0
  }

  /** The largest speed of the first n evaluations. */
  function TopSpeed(episode: Evaluations, n: nat): real
    requires 1 <= n <= |episode|
  {
    var v := Abs(episode[n - 1].0.velocity);
    if n == 1 then v else Max(TopSpeed(episode, n - 1), v)
  }

  /** The largest residual of the first n evaluations. */
  function TopResidual(episode: Evaluations, n: nat): real
    requires 1 <= n <= |episode|
  {
    var z := Abs(episode[n - 1].0.residualZ);
    if n == 1 then z else Max(TopResidual(episode, n - 1), z)
  }

  /** The price furthest along the heading among the first n evaluations. */
  function Furthest(episode: Evaluations, n: nat): real
    requires 1 <= n <= |episode|
  {
    var mid := episode[n - 1].0.mid;
    if n == 1 then mid else
    var before := Furthest(episode, n - 1);
    if Heading(episode) * (mid - before) > 0.0 then mid else before
  }

  // ----- evidence, in terms of what was evaluated

  predicate ImpulseAt(c: Config, f: Feature) { Abs(f.residualZ) >= c.impulseZ && Abs(f.velocity) >= c.minVelocity }

  predicate Unconfirmed(c: Config, f: Feature) { f.peerLatency < 0.0 || f.peerLatency > c.maxPeerLatency }

  /** At this speed, after that top speed, with the impact decaying and the flow fading, a burst is spent. */
  predicate Spent(c: Config, f: Feature, heading: real, top: real) {
    && Abs(f.velocity) <= c.velocityFlip * Max(top, FLOOR)
    && f.impactDecay > 0.15 && (heading * f.flow < 0.35 || heading * f.acceleration < 0.0)
  }

  predicate SpentAt(c: Config, episode: Evaluations, k: nat)
    requires k < |episode|
  {
    Spent(c, episode[k].0, Heading(episode), TopSpeed(episode, k + 1))
  }

  /** At evaluation k the price is back within the tolerance of its furthest point. */
  predicate BackAt(c: Config, episode: Evaluations, k: nat)
    requires k < |episode|
  {
    var mid := episode[k].0.mid;
    Heading(episode) * (Furthest(episode, k + 1) - mid) / Max(mid, FLOOR) * 10000.0 <= c.retestTolerance
  }

  /** At evaluation k the book leans against the burst. */
  predicate LeansAt(c: Config, episode: Evaluations, k: nat)
    requires k < |episode|
  {
    var f, d := episode[k].0, Heading(episode);
    d * f.microprice < 0.0 || (d * f.replenishment < 0.0 && f.replenishmentConfidence >= c.minReplenishment)
  }

  /** What an armed track has behind it, and what it remembers of the episode. */
  ghost predicate Grounded(c: Config, t: Track, episode: Evaluations) {
    && 1 <= |episode| && ImpulseAt(c, episode[0].0)
    && (forall i :: 1 <= i < |episode| ==> Unconfirmed(c, episode[i].0))
    && t.direction == Heading(episode) && t.extreme == Furthest(episode, |episode|)
    && t.peakVelocity == TopSpeed(episode, |episode|) && t.peakZ == TopResidual(episode, |episode|)
    && (t.state == Impulse ==> |episode| == 1)
    && (t.state != Impulse ==> 2 <= |episode| && c.impulseZ * 0.5 <= Abs(episode[1].0.residualZ))
    && (t.state in {Exhaustion, FailedRetest} ==> exists k: nat :: 2 <= k < |episode| && SpentAt(c, episode, k))
    && (t.state == FailedRetest ==>
          exists k: nat, m: nat :: 2 <= k < m < |episode| && SpentAt(c, episode, k)
            && LeansAt(c, episode, m) && !BackAt(c, episode, m))
  }

  ghost predicate Held(c: Config, w: Watch) { Armed(w.track.state) ==> Grounded(c, w.track, w.episode) }

  // ----- one more evaluation

  lemma {:induction false} Extended(episode: Evaluations, e: (Feature, GovernorAction), n: nat)
    requires 1 <= n <= |episode|
    ensures TopSpeed(episode + [e], n) == TopSpeed(episode, n)
    ensures TopResidual(episode + [e], n) == TopResidual(episode, n)
    ensures Furthest(episode + [e], n) == Furthest(episode, n) && Heading(episode + [e]) == Heading(episode)
  {
    assert (episode + [e])[n - 1] == episode[n - 1] && (episode + [e])[0] == episode[0];
    if n > 1 { Extended(episode, e, n - 1); }
  }

  lemma SameEvidence(c: Config, episode: Evaluations, e: (Feature, GovernorAction), k: nat)
    requires k < |episode|
    ensures SpentAt(c, episode + [e], k) == SpentAt(c, episode, k)
    ensures LeansAt(c, episode + [e], k) == LeansAt(c, episode, k)
    ensures BackAt(c, episode + [e], k) == BackAt(c, episode, k)
  {
    Extended(episode, e, k + 1);
    assert (episode + [e])[k] == episode[k];
    hide TopSpeed, Furthest;
  }

  /** The running extremes are those of the episode. */
  lemma FollowExtremes(c: Config, t: Track, episode: Evaluations, f: Feature, action: GovernorAction)
    requires Grounded(c, t, episode)
    ensures var t', all := Follow(t, f), episode + [(f, action)];
            && t'.direction == Heading(all) && t'.extreme == Furthest(all, |all|)
            && t'.peakVelocity == TopSpeed(all, |all|) && t'.peakZ == TopResidual(all, |all|)
            && t'.state == t.state && t'.retestSeen == t.retestSeen && t'.enteredAt == t.enteredAt
  {
    var all := episode + [(f, action)];
    Extended(episode, (f, action), |episode|);
    assert all[|all| - 1] == (f, action);
    assert |all| - 1 == |episode|;
    hide SpentAt, LeansAt, BackAt, ImpulseAt, Unconfirmed;
  }

  /**
   What one evaluation does to a grounded track, in terms of the episode alone: every edge and every stay, with its
   exact condition.  `flag` is whether a retest is on record and `dwell` how long the track has been in its state.
   */
  lemma NextStage(c: Config, t: Track, episode: Evaluations, f: Feature, action: GovernorAction, trace: string)
    requires Armed(t.state) && Grounded(c, t, episode)
    ensures var (t', sig) := StepTrack(c, t, f, action, trace);
            var all, dwell := episode + [(f, action)], Dwell(t, f.ts);
            var n: nat := |episode|;
            t'.state ==
              if action.NoTrade? || !Unconfirmed(c, f) then Idle else
              match t.state
              case Impulse =>
                if dwell > c.impulseTimeout || Abs(f.residualZ) < c.impulseZ * 0.5 then Idle else ConfirmWait
              case ConfirmWait =>
                if dwell < c.confirmWait then ConfirmWait
                else if SpentAt(c, all, n) then Exhaustion
                else if dwell > c.impulseTimeout then Idle else ConfirmWait
              case Exhaustion =>
                if dwell > c.exhaustionTimeout then Idle
                else if !BackAt(c, all, n) && t.retestSeen && LeansAt(c, all, n) then FailedRetest else Exhaustion
              case _ => if dwell > c.retestTimeout then Idle else SState.Entry
    ensures var t', n: nat := StepTrack(c, t, f, action, trace).0, |episode|;
            t'.retestSeen <==>
              || t.retestSeen
              || (t.state == Exhaustion && !action.NoTrade? && Unconfirmed(c, f)
                  && Dwell(t, f.ts) <= c.exhaustionTimeout && BackAt(c, episode + [(f, action)], n))
  {
    FollowExtremes(c, t, episode, f, action);
    var t1, all := Follow(t, f), episode + [(f, action)];
    var n: nat := |episode|;
    assert all[n] == (f, action) && |all| == n + 1;
    HeadingSign(all);
    SpentIs(c, t1, all, f, action);
    BackIs(c, t1, all, f, action);
    LeansIs(c, t1, all, f, action);
    NoNewExtreme(t, f);
    hide Exhausted, NearExtreme, BookAgainst, SpentAt, BackAt, LeansAt, Follow, Furthest, TopSpeed, TopResidual,
         SignalOf, Grounded;
  }

  lemma HeadingSign(episode: Evaluations)
    requires episode != []
    ensures Heading(episode) in {1.0, -1.0}
  {
  }

  lemma SpentIf(c: Config, t: Track, f: Feature)
    requires Exhausted(c, t, f)
    ensures Spent(c, f, t.direction, t.peakVelocity)
  {
  }

  lemma SpentOnlyIf(c: Config, t: Track, f: Feature)
    requires Spent(c, f, t.direction, t.peakVelocity)
    ensures Exhausted(c, t, f)
  {
  }

  lemma SpentIs(c: Config, t: Track, all: Evaluations, f: Feature, action: GovernorAction)
    requires all != [] && all[|all| - 1] == (f, action)
    requires t.direction == Heading(all) && t.peakVelocity == TopSpeed(all, |all|)
    ensures Exhausted(c, t, f) <==> SpentAt(c, all, |all| - 1)
  {
    hide TopSpeed, Heading, Spent, Exhausted;
    if Exhausted(c, t, f) {
      SpentIf(c, t, f);
    } else if Spent(c, f, t.direction, t.peakVelocity) {
      SpentOnlyIf(c, t, f);
    }
  }

  lemma BackIs(c: Config, t: Track, all: Evaluations, f: Feature, action: GovernorAction)
    requires all != [] && all[|all| - 1] == (f, action)
    requires t.direction == Heading(all) && t.extreme == Furthest(all, |all|)
    ensures NearExtreme(c, t, f) <==> BackAt(c, all, |all| - 1)
  {
    hide Furthest, Heading;
  }

  lemma LeansIs(c: Config, t: Track, all: Evaluations, f: Feature, action: GovernorAction)
    requires all != [] && all[|all| - 1] == (f, action) && t.direction == Heading(all)
    ensures BookAgainst(c, t, f) <==> LeansAt(c, all, |all| - 1)
  {
    hide Heading;
  }

  /** Once the extreme follows, no price is beyond it. */
  lemma NoNewExtreme(t: Track, f: Feature)
    ensures var t' := Follow(t, f); !(t'.direction * (f.mid - t'.extreme) > 0.0)
  {
  }

  // ----- over every run

  lemma ArmGrounded(c: Config, t: Track, f: Feature, action: GovernorAction, trace: string)
    requires t.state == Idle
    ensures var t' := StepTrack(c, t, f, action, trace).0;
            Armed(t'.state) ==> Grounded(c, t', [(f, action)])
  {
  }

  /** An idle track is armed by exactly the tradable impulses. */
  lemma ArmsOnImpulse(c: Config, t: Track, f: Feature, action: GovernorAction, trace: string)
    requires t.state == Idle
    ensures StepTrack(c, t, f, action, trace).0.state == if !action.NoTrade? && ImpulseAt(c, f) then Impulse else Idle
    ensures StepTrack(c, t, f, action, trace).1.None?
  {
  }

  /** The evidence an evaluation adds is kept, and so is what was there. */
  lemma StepGrounded(c: Config, t: Track, episode: Evaluations, f: Feature, action: GovernorAction, trace: string)
    requires Armed(t.state) && Grounded(c, t, episode)
    ensures var t' := StepTrack(c, t, f, action, trace).0;
            Armed(t'.state) ==> Grounded(c, t', episode + [(f, action)])
  {
    hide SpentAt, BackAt, LeansAt, TopSpeed, TopResidual, Furthest, StepTrack, Follow, ImpulseAt, Heading;
    NextStage(c, t, episode, f, action, trace);
    FollowExtremes(c, t, episode, f, action);
    KeepsExtremes(c, t, f, action, trace);
    var t', all := StepTrack(c, t, f, action, trace).0, episode + [(f, action)];
    var n: nat := |episode|;
    if Armed(t'.state) {
      assert forall i :: 1 <= i < |all| ==> Unconfirmed(c, all[i].0);
      assert all[0] == episode[0] && all[n] == (f, action) && |all| == n + 1;
      if t'.state == Exhaustion {
        if t.state == ConfirmWait {
          assert SpentAt(c, all, n);
        } else {
          var k := SpentBefore(c, t, episode);
          SameEvidence(c, episode, (f, action), k);
          assert SpentAt(c, all, k);
        }
      } else if t'.state == FailedRetest {
        var k := SpentBefore(c, t, episode);
        SameEvidence(c, episode, (f, action), k);
        assert SpentAt(c, all, k) && LeansAt(c, all, n) && !BackAt(c, all, n);
      }
    }
  }

  lemma SpentBefore(c: Config, t: Track, episode: Evaluations) returns (k: nat)
    requires Grounded(c, t, episode) && t.state in {Exhaustion, FailedRetest}
    ensures 2 <= k < |episode| && SpentAt(c, episode, k)
  {
    hide SpentAt, BackAt, LeansAt, TopSpeed, TopResidual, Furthest;
    k :| 2 <= k < |episode| && SpentAt(c, episode, k);
  }

  lemma KeepsExtremes(c: Config, t: Track, f: Feature, action: GovernorAction, trace: string)
    requires Armed(t.state)
    ensures var t', t1 := StepTrack(c, t, f, action, trace).0, Follow(t, f);
            && t'.direction == t1.direction && t'.extreme == t1.extreme
            && t'.peakVelocity == t1.peakVelocity && t'.peakZ == t1.peakZ
  {
    hide Exhausted, NearExtreme, BookAgainst, SignalOf, Follow;
  }

  lemma NextHeld(c: Config, w: Watch, e: Event)
    requires Held(c, w)
    ensures Held(c, Next(c, w, e))
  {
    hide Grounded, StepTrack;
    if e.Steps? {
      if Armed(w.track.state) {
        StepGrounded(c, w.track, w.episode, e.f, e.action, e.trace);
      } else if w.track.state == Idle {
        ArmGrounded(c, w.track, e.f, e.action, e.trace);
      } else {
        StaysOut(c, w.track, e.f, e.action, e.trace);
      }
    }
  }

  lemma StaysOut(c: Config, t: Track, f: Feature, action: GovernorAction, trace: string)
    requires !Armed(t.state) && t.state != Idle
    ensures !Armed(StepTrack(c, t, f, action, trace).0.state)
  {
  }

  lemma {:induction false} RunHeld(c: Config, gap: Time, w: Watch, events: seq<Event>, w': Watch)
    requires Held(c, w) && Run(c, gap, w, events, w')
    ensures Held(c, w')
    decreases |events|
  {
    hide Held, Next, Timely;
    if events != [] {
      NextHeld(c, w, events[0]);
      RunHeld(c, gap, Next(c, w, events[0]), events[1..], w');
    }
  }

  /**
   The evidence behind a signal: an impulse; no evaluation since with peers confirming fast; an evaluation at which
   the burst was spent; and a later one away from the furthest price with the book leaning against the burst.
   */
  ghost predicate Evident(c: Config, episode: Evaluations) {
    && 1 <= |episode| && ImpulseAt(c, episode[0].0)
    && (forall i :: 1 <= i < |episode| ==> Unconfirmed(c, episode[i].0))
    && exists k: nat, m: nat :: 2 <= k < m < |episode| - 1 && SpentAt(c, episode, k)
         && LeansAt(c, episode, m) && !BackAt(c, episode, m)
  }

  /** Stop and target at exact distances from the furthest price and from the reference. */
  predicate Levelled(c: Config, sig: Signal, f: Feature, heading: real, far: real) {
    && sig.stop - far == far * (heading * c.stopBps / 10000.0)
    && sig.reference - sig.target == sig.reference * (heading * (Abs(f.residualReturn) * c.targetReversion))
  }

  /** The signal sells a burst that ran up and buys one that ran down, on evidence, at exact levels. */
  ghost predicate Fades(c: Config, sig: Signal, f: Feature, trace: string, all: Evaluations)
    requires all != []
  {
    && (sig.side.Sell? <==> all[0].0.residualZ > 0.0)
    && Evident(c, all)
    && sig.symbol == f.symbol && sig.ts == f.ts && sig.reference == f.mid && sig.traceId == trace
    && Levelled(c, sig, f, Heading(all), Furthest(all, |all|))
    && sig.score == TopResidual(all, |all|)
  }

  lemma FadesSide(c: Config, sig: Signal, f: Feature, trace: string, all: Evaluations)
    requires all != [] && Fades(c, sig, f, trace, all)
    ensures sig.side.Sell? <==> all[0].0.residualZ > 0.0
  {
    hide Evident;
  }

  lemma GroundedEvident(c: Config, t: Track, episode: Evaluations, e: (Feature, GovernorAction))
    requires Grounded(c, t, episode) && t.state == FailedRetest && Unconfirmed(c, e.0)
    ensures Evident(c, episode + [e])
  {
    hide SpentAt, BackAt, LeansAt, TopSpeed, TopResidual, Furthest, Unconfirmed, ImpulseAt, Heading;
    var k: nat, m: nat :| 2 <= k < m < |episode| && SpentAt(c, episode, k)
                          && LeansAt(c, episode, m) && !BackAt(c, episode, m);
    SameEvidence(c, episode, e, k);
    SameEvidence(c, episode, e, m);
    var all := episode + [e];
    assert SpentAt(c, all, k) && LeansAt(c, all, m) && !BackAt(c, all, m);
    assert forall i :: 1 <= i < |all| ==> Unconfirmed(c, all[i].0);
  }

  /**
   Every signal fades its burst: it sells if and only if the impulse's residual was positive.  It rests on evidence
   from its own episode, and its levels and score are exactly those of the furthest price, the reference and the
   largest residual.
   */
  lemma SignalFadesImpulse(c: Config, gap: Time, t0: Time, events: seq<Event>, w: Watch, e: Event)
    requires Run(c, gap, Begin(t0), events, w) && Emitted(c, w, e).Some?
    ensures e.Steps? && 1 <= |Next(c, w, e).episode|
    ensures var sig, episode := Emitted(c, w, e).value, Next(c, w, e).episode;
            (sig.side.Sell? <==> episode[0].0.residualZ > 0.0) && Fades(c, sig, e.f, e.trace, episode)
  {
    assert Held(c, Begin(t0));
    RunHeld(c, gap, Begin(t0), events, w);
    hide Run, StepTrack, Grounded, Fades;
    EmitsOnlyWhenArmed(c, w, e);
    FadeSignal(c, w.track, w.episode, e.f, e.action, e.trace);
    FadesSide(c, Emitted(c, w, e).value, e.f, e.trace, Next(c, w, e).episode);
  }

  lemma FadeSignal(c: Config, t: Track, episode: Evaluations, f: Feature, action: GovernorAction, trace: string)
    requires Armed(t.state) && Grounded(c, t, episode) && StepTrack(c, t, f, action, trace).1.Some?
    ensures var sig, all := StepTrack(c, t, f, action, trace).1.value, episode + [(f, action)];
            Fades(c, sig, f, trace, all)
  {
    hide StepTrack, Grounded, Evident, Furthest, TopResidual, TopSpeed, Follow, SignalOf, Levelled;
    var all := episode + [(f, action)];
    FollowExtremes(c, t, episode, f, action);
    EmittedHow(c, t, f, action, trace);
    GroundedEvident(c, t, episode, (f, action));
    ExactLevels(c, Follow(t, f), f, trace);
  }

  lemma EmittedHow(c: Config, t: Track, f: Feature, action: GovernorAction, trace: string)
    requires Armed(t.state) && StepTrack(c, t, f, action, trace).1.Some?
    ensures t.state == FailedRetest && Unconfirmed(c, f)
    ensures StepTrack(c, t, f, action, trace).1 == Some(SignalOf(c, Follow(t, f), f, trace))
  {
    hide Exhausted, NearExtreme, BookAgainst, SignalOf;
  }

  lemma ExactLevels(c: Config, t: Track, f: Feature, trace: string)
    ensures var sig, d := SignalOf(c, t, f, trace), t.direction;
            && (sig.side.Sell? <==> d > 0.0) && sig.symbol == f.symbol && sig.ts == f.ts && sig.reference == f.mid
            && sig.traceId == trace && sig.score == t.peakZ
            && Levelled(c, sig, f, d, t.extreme)
  {
    var k := t.direction * c.stopBps / 10000.0;
    assert t.extreme * (1.0 + k) == t.extreme + t.extreme * k;
    var m := t.direction * (Abs(f.residualReturn) * c.targetReversion);
    assert f.mid * (1.0 - m) == f.mid - f.mid * m;
  }

  // ----- a burst that runs down

  /** A fall that peers do not confirm, at some price, speed and book pressure. */
  function Slump(symbol: string, ts: Time, mid: real, velocity: real, microprice: real): Feature {
    Feature(symbol, ts, mid, -0.01, -3.0, velocity, 0.0, -1.0, 0.0, 0.5, microprice, 0.0, 0.0)
  }

  function Falling(symbol: string, t0: Time): seq<Feature> {
    [Slump(symbol, t0, 100.0, -4.0, 0.0),
     Slump(symbol, t0 + 1000.0, 100.0, -4.0, 0.0),
     Slump(symbol, t0 + 10000.0, 101.0, -0.5, 0.0),
     Slump(symbol, t0 + 11000.0, 101.0, -0.5, 1.0),
     Slump(symbol, t0 + 12000.0, 101.0, -0.5, 1.0)]
  }

  predicate InSlump(t: Track, state: SState, since: Time) {
    && t.state == state && t.enteredAt == Some(since) && t.retestSeen
    && t.direction == -1.0 && t.extreme == 100.0 && t.peakVelocity == 4.0
  }

  lemma SlumpStarts(t: Track, symbol: string, ts: Time, trace: string)
    requires t.state == Idle && t.retestSeen
    ensures InSlump(StepTrack(T.DefaultConfig, t, Slump(symbol, ts, 100.0, -4.0, 0.0), Reversal, trace).0, Impulse, ts)
  {
  }

  lemma SlumpConfirms(t: Track, symbol: string, since: Time, trace: string)
    requires InSlump(t, Impulse, since)
    ensures var f := Slump(symbol, since + 1000.0, 100.0, -4.0, 0.0);
            InSlump(StepTrack(T.DefaultConfig, t, f, Reversal, trace).0, ConfirmWait, since + 1000.0)
  {
  }

  lemma SlumpSpent(t: Track, symbol: string, since: Time, trace: string)
    requires InSlump(t, ConfirmWait, since)
    ensures var f := Slump(symbol, since + 9000.0, 101.0, -0.5, 0.0);
            InSlump(StepTrack(T.DefaultConfig, t, f, Reversal, trace).0, Exhaustion, since + 9000.0)
  {
  }

  lemma SlumpFails(t: Track, symbol: string, since: Time, trace: string)
    requires InSlump(t, Exhaustion, since)
    ensures var f := Slump(symbol, since + 1000.0, 101.0, -0.5, 1.0);
            InSlump(StepTrack(T.DefaultConfig, t, f, Reversal, trace).0, FailedRetest, since + 1000.0)
  {
    var f := Slump(symbol, since + 1000.0, 101.0, -0.5, 1.0);
    var t1 := Follow(t, f);
    assert t1.direction * (t1.extreme - f.mid) / Max(f.mid, FLOOR) * 10000.0 == 1.0 / 101.0 * 10000.0;
  }

  lemma SlumpSignals(t: Track, symbol: string, since: Time, trace: string)
    requires InSlump(t, FailedRetest, since)
    ensures var f := Slump(symbol, since + 1000.0, 101.0, -0.5, 1.0);
            var sig := StepTrack(T.DefaultConfig, t, f, Reversal, trace).1;
            sig.Some? && sig.value.side.Buy? && sig.value.stop == 99.7 && 101.0 < sig.value.target
  {
    var f := Slump(symbol, since + 1000.0, 101.0, -0.5, 1.0);
    assert StopPrice(T.DefaultConfig, Follow(t, f)) == 99.7;
    assert TargetPrice(T.DefaultConfig, Follow(t, f), f) == 101.0 * 1.005;
  }

  /** A fall to 100 and the rebound after it: the signal buys, with its stop below the low and its target above. */
  lemma FallingBurstBuys(t: Track, symbol: string, t0: Time, trace: string)
    requires t.state == Idle && t.retestSeen
    ensures var sig := T.StepAll(T.DefaultConfig, t, Falling(symbol, t0), trace).1;
            sig.Some? && sig.value.side.Buy? && sig.value.stop == 99.7 && 101.0 < sig.value.target
  {
    hide StepTrack;
    var c, fs := T.DefaultConfig, Falling(symbol, t0);
    assert fs[..1][..0] == [] && fs[..2][..1] == fs[..1] && fs[..3][..2] == fs[..2] && fs[..4][..3] == fs[..3];
    var t1 := StepTrack(c, t, fs[0], Reversal, trace).0;
    SlumpStarts(t, symbol, t0, trace);
    var t2 := StepTrack(c, t1, fs[1], Reversal, trace).0;
    SlumpConfirms(t1, symbol, t0, trace);
    var t3 := StepTrack(c, t2, fs[2], Reversal, trace).0;
    SlumpSpent(t2, symbol, t0 + 1000.0, trace);
    var t4 := StepTrack(c, t3, fs[3], Reversal, trace).0;
    SlumpFails(t3, symbol, t0 + 10000.0, trace);
    SlumpSignals(t4, symbol, t0 + 11000.0, trace);
    assert T.StepAll(c, t, fs[..1], trace).0 == t1;
    assert T.StepAll(c, t, fs[..2], trace).0 == t2;
    assert T.StepAll(c, t, fs[..3], trace).0 == t3;
    assert T.StepAll(c, t, fs[..4], trace).0 == t4;
    assert T.StepAll(c, t, fs, trace) == StepTrack(c, t4, fs[4], Reversal, trace);
  }

  // ----- backing off

  /** No signal before the given time, whatever comes. */
  predicate Resting(c: Config, w: Watch, until: Time) {
    match w.track.state
    case Idle => until <= w.clock
    case Cooldown =>
      w.track.cooldownUntil.Some? && until <= w.track.cooldownUntil.value && until <= w.clock + c.cooldown
    case Entry => until <= w.clock
    case Manage => until <= w.clock
    case Exit => until <= w.clock
    case _ => w.track.impulseStart.Some? && until <= w.track.impulseStart.value <= w.clock
  }

  lemma NextRests(c: Config, gap: Time, w: Watch, e: Event, until: Time)
    requires Resting(c, w, until) && Timely(w, gap, e) && 0.0 <= c.cooldown
    ensures Resting(c, Next(c, w, e), until)
  {
    hide Exhausted, NearExtreme, BookAgainst, SignalOf, ImpulseSeen, PeersConfirmedFast;
  }

  lemma {:induction false} RunRests(c: Config, gap: Time, w: Watch, events: seq<Event>, w': Watch, until: Time)
    requires Resting(c, w, until) && Run(c, gap, w, events, w') && 0.0 <= c.cooldown
    ensures Resting(c, w', until)
    decreases |events|
  {
    hide Resting, Next, Timely;
    if events != [] {
      NextRests(c, gap, w, events[0], until);
      RunRests(c, gap, Next(c, w, events[0]), events[1..], w', until);
    }
  }

  lemma {:induction false} RunJoins(c: Config, gap: Time, w: Watch, first: seq<Event>, w1: Watch, second: seq<Event>,
                                    w2: Watch)
    requires Run(c, gap, w, first, w1) && Run(c, gap, w1, second, w2)
    ensures Run(c, gap, w, first + second, w2)
    decreases |first|
  {
    hide Next, Timely;
    if first == [] {
      assert first + second == second;
    } else {
      assert (first + second)[1..] == first[1..] + second;
      RunJoins(c, gap, Next(c, w, first[0]), first[1..], w1, second, w2);
    }
  }

  /** After a position is closed, no signal comes before a full cooldown and a confirmation wait have passed. */
  lemma ClosedRests(c: Config, gap: Time, t0: Time, before: seq<Event>, w0: Watch, ts: Time, events: seq<Event>,
                    w: Watch, e: Event)
    requires Sane(c, gap) && Run(c, gap, Begin(t0), before, w0) && Timely(w0, gap, Closes(ts))
    requires Run(c, gap, Next(c, w0, Closes(ts)), events, w) && Timely(w, gap, e) && Emitted(c, w, e).Some?
    ensures ts + c.cooldown + c.confirmWait <= Emitted(c, w, e).value.ts
  {
    var w1 := Next(c, w0, Closes(ts));
    assert Resting(c, w1, ts + c.cooldown);
    RunRests(c, gap, w1, events, w, ts + c.cooldown);
    assert Run(c, gap, w0, [Closes(ts)], w1) by {
      assert [Closes(ts)][1..] == [];
    }
    RunJoins(c, gap, Begin(t0), before, w0, [Closes(ts)], w1);
    RunJoins(c, gap, Begin(t0), before + [Closes(ts)], w1, events, w);
    SignalTiming(c, gap, t0, before + [Closes(ts)] + events, w, e);
    EmitsOnlyWhenArmed(c, w, e);
    hide Run, Next, StepTrack, EndsPath, Longest;
  }

  /** How long a track backs off, to the moment: a full cooldown after a trade, half of one after a failed entry. */
  lemma BacksOffFor(c: Config, t: Track, ts: Time, f: Feature, action: GovernorAction, trace: string)
    ensures StepTrack(c, Closed(c, t, ts), f, action, trace).0.state
            == if ts + c.cooldown <= f.ts then Idle else Cooldown
    ensures t.state == SState.Entry ==>
              StepTrack(c, EntryFailed(c, t, ts), f, action, trace).0.state
              == if ts + c.cooldown / 2.0 <= f.ts then Idle else Cooldown
    ensures t.state == SState.Entry ==> EntryFilled(t, ts).state == Manage
  {
  }
}
