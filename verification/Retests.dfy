/** Which signals follow a retest of their own burst: the flag that is never cleared decides. */
module Retests {
  import opened Wrappers
  import opened RealMath
  import opened Models
  import opened Fsm
  import opened FsmRuns

  /** An evaluation in EXHAUSTION that finds the price back near the extreme of the burst. */
  predicate Retest(c: Config, t: Track, f: Feature) {
    t.state == Exhaustion && NearExtreme(c, Follow(t, f), f)
  }

  /**
    One symbol, whether the flag was already set when the current episode was armed, and whether it has had a
    retest.
   */
  datatype Tale = Tale(watch: Watch, carried: bool, retested: bool)

  function Tell(c: Config, s: Tale, e: Event): Tale {
    var w, w' := s.watch, Next(c, s.watch, e);
    if !e.Steps? then s.(watch := w')
    else if Armed(w.track.state) then Tale(w', s.carried, s.retested || Retest(c, w.track, e.f))
    else if Armed(w'.track.state) then Tale(w', w.track.retestSeen, false)
    else s.(watch := w')
  }

  ghost predicate Told(c: Config, s: Tale, events: seq<Event>, s': Tale)
    decreases |events|
  {
    if events == [] then s' == s else Told(c, Tell(c, s, events[0]), events[1..], s')
  }

  function Untold(t0: Time): Tale { Tale(Begin(t0), false, false) }

  /** Within an episode the flag is set only if it was carried in or set by a retest; a failed retest needs the flag. */
  ghost predicate FlagSound(s: Tale) {
    var t := s.watch.track;
    && (Armed(t.state) && t.retestSeen ==> s.carried || s.retested)
    && (t.state == FailedRetest ==> t.retestSeen)
  }

  lemma StepFlag(c: Config, t: Track, f: Feature, action: GovernorAction, trace: string)
    requires Armed(t.state) && (t.state == FailedRetest ==> t.retestSeen)
    ensures var (t', sig) := StepTrack(c, t, f, action, trace);
            && (t'.retestSeen ==> t.retestSeen || Retest(c, t, f))
            && (t'.state == FailedRetest ==> t'.retestSeen)
            && (sig.Some? ==> t.state == FailedRetest)
  {
    hide NearExtreme, BookAgainst, Exhausted, PeersConfirmedFast, StopPrice, TargetPrice;
    assert Follow(t, f).retestSeen == t.retestSeen && Follow(t, f).state == t.state;
  }

  lemma TellFlag(c: Config, s: Tale, e: Event)
    requires FlagSound(s)
    ensures FlagSound(Tell(c, s, e))
  {
    hide NearExtreme, Retest, Advance, ImpulseSeen;
    if e.Steps? && Armed(s.watch.track.state) { StepFlag(c, s.watch.track, e.f, e.action, e.trace); }
  }

  lemma {:induction false} ToldFlag(c: Config, s: Tale, events: seq<Event>, s': Tale)
    requires FlagSound(s) && Told(c, s, events, s')
    ensures FlagSound(s')
    decreases |events|
  {
    hide FlagSound, Tell;
    if events != [] {
      TellFlag(c, s, events[0]);
      ToldFlag(c, Tell(c, s, events[0]), events[1..], s');
    }
  }

  /** Every run of the state machine has its tale. */
  lemma {:induction false} RunIsTold(c: Config, gap: Time, s: Tale, events: seq<Event>, w: Watch) returns (s': Tale)
    requires Run(c, gap, s.watch, events, w)
    ensures Told(c, s, events, s') && s'.watch == w
    decreases |events|
  {
    hide Next, Timely;
    if events == [] {
      s' := s;
    } else {
      s' := RunIsTold(c, gap, Tell(c, s, events[0]), events[1..], w);
    }
  }

  /**
   Every signal of an episode that was armed with the flag clear follows a retest within that episode: an
   evaluation in EXHAUSTION, after the impulse, with the price back near the extreme.
   */
  lemma SignalHasRetest(c: Config, t0: Time, events: seq<Event>, s: Tale, e: Event)
    requires Told(c, Untold(t0), events, s) && Emitted(c, s.watch, e).Some? && !s.carried
    ensures s.retested
  {
    hide Told, Retest, NearExtreme;
    ToldFlag(c, Untold(t0), events, s);
    EmitsOnlyWhenArmed(c, s.watch, e);
    StepFlag(c, s.watch.track, e.f, e.action, e.trace);
    hide StepTrack;
  }

  // ----- the same five evaluations, with the flag clear and with the flag set

  /** Times in milliseconds. */
  const DefaultConfig := Config(2.25, 1.0, 8000.0, 90000.0, 120000.0, 60000.0, 6.0, 120000.0, 20000.0, 0.25, 0.4, 30.0,
                                0.5)

  /** An upward burst that peers do not confirm, at some price, speed and book pressure. */
  function Burst(symbol: string, ts: Time, mid: real, velocity: real, microprice: real): Feature {
    Feature(symbol, ts, mid, 0.01, 3.0, velocity, 0.0, -1.0, 0.0, 0.5, microprice, 0.0, 0.0)
  }

  function Run5(symbol: string, t0: Time): seq<Feature> {
    [Burst(symbol, t0, 100.0, 4.0, 0.0),
     Burst(symbol, t0 + 1000.0, 100.0, 4.0, 0.0),
     Burst(symbol, t0 + 10000.0, 99.0, 0.5, 0.0),
     Burst(symbol, t0 + 11000.0, 99.0, 0.5, -1.0),
     Burst(symbol, t0 + 12000.0, 99.0, 0.5, -1.0)]
  }

  function StepAll(c: Config, t: Track, fs: seq<Feature>, trace: string): (Track, Option<Signal>)
    requires fs != []
  {
    var (t', sig) := if |fs| == 1 then (t, None) else StepAll(c, t, fs[..|fs| - 1], trace);
    StepTrack(c, t', fs[|fs| - 1], Reversal, trace)
  }

  /** The price at 99 is further from an extreme at 100 than the tolerance. */
  lemma Away(t: Track, f: Feature)
    requires t.direction == 1.0 && t.extreme == 100.0 && f.mid == 99.0
    ensures !NearExtreme(DefaultConfig, t, f)
  {
    assert t.direction * (t.extreme - f.mid) / Max(f.mid, FLOOR) * 10000.0 == 1.0 / 99.0 * 10000.0;
  }

  lemma ImpulseStep(t: Track, symbol: string, ts: Time, trace: string)
    requires t.state == Idle
    ensures StepTrack(DefaultConfig, t, Burst(symbol, ts, 100.0, 4.0, 0.0), Reversal, trace)
            == (Go(t.(direction := 1.0, impulseStart := Some(ts), extreme := 100.0, peakVelocity := 4.0, peakZ := 3.0),
                   Impulse, ts), None)
  {
  }

  /** A track in the middle of the burst. */
  predicate InBurst(t: Track, state: SState, since: Time, flag: bool) {
    && t.state == state && t.enteredAt == Some(since) && t.retestSeen == flag
    && t.direction == 1.0 && t.extreme == 100.0 && t.peakVelocity == 4.0
  }

  lemma ConfirmStep(t: Track, symbol: string, since: Time, ts: Time, flag: bool, trace: string)
    requires InBurst(t, Impulse, since, flag) && since <= ts <= since + 90000.0
    ensures var (t', sig) := StepTrack(DefaultConfig, t, Burst(symbol, ts, 100.0, 4.0, 0.0), Reversal, trace);
            InBurst(t', ConfirmWait, ts, flag) && sig.None?
  {
  }

  lemma ExhaustionStep(t: Track, symbol: string, since: Time, ts: Time, flag: bool, trace: string)
    requires InBurst(t, ConfirmWait, since, flag) && since + 8000.0 <= ts
    ensures var (t', sig) := StepTrack(DefaultConfig, t, Burst(symbol, ts, 99.0, 0.5, 0.0), Reversal, trace);
            InBurst(t', Exhaustion, ts, flag) && sig.None?
  {
  }

  /** Away from the extreme with the book against the burst, the flag alone decides whether the retest has failed. */
  lemma FailureStep(t: Track, symbol: string, since: Time, ts: Time, flag: bool, trace: string)
    requires InBurst(t, Exhaustion, since, flag) && since <= ts <= since + 120000.0
    ensures var (t', sig) := StepTrack(DefaultConfig, t, Burst(symbol, ts, 99.0, 0.5, -1.0), Reversal, trace);
            sig.None? && (if flag then InBurst(t', FailedRetest, ts, true) else InBurst(t', Exhaustion, since, false))
  {
    Away(Follow(t, Burst(symbol, ts, 99.0, 0.5, -1.0)), Burst(symbol, ts, 99.0, 0.5, -1.0));
    hide NearExtreme;
  }

  lemma EntryStep(t: Track, symbol: string, since: Time, ts: Time, trace: string)
    requires InBurst(t, FailedRetest, since, true) && since <= ts <= since + 60000.0
    ensures var f := Burst(symbol, ts, 99.0, 0.5, -1.0);
            var (t', sig) := StepTrack(DefaultConfig, t, f, Reversal, trace);
            t'.state == SState.Entry && sig == Some(SignalOf(DefaultConfig, Follow(t, f), f, trace))
  {
  }

  /** The price back at the extreme sets the flag. */
  lemma RetestStep(t: Track, symbol: string, since: Time, ts: Time, flag: bool, trace: string)
    requires InBurst(t, Exhaustion, since, flag) && since <= ts <= since + 120000.0
    ensures var f := Burst(symbol, ts, 100.0, 0.5, 0.0);
            var (t', sig) := StepTrack(DefaultConfig, t, f, Reversal, trace);
            InBurst(t', Exhaustion, since, true) && sig.None? && Retest(DefaultConfig, t, f)
  {
    var f := Burst(symbol, ts, 100.0, 0.5, 0.0);
    assert Follow(t, f).direction * (Follow(t, f).extreme - f.mid) == 0.0;
    assert 0.0 / Max(f.mid, FLOOR) * 10000.0 == 0.0;
  }

  /**
   Five evaluations from an impulse on, none of them a retest, give a signal if and only if the flag was set
   before the impulse.
   */
  lemma SignalIffFlagCarried(t: Track, symbol: string, t0: Time, trace: string)
    requires t.state == Idle
    ensures StepAll(DefaultConfig, t, Run5(symbol, t0), trace).1.Some? <==> t.retestSeen
    ensures forall k :: 0 < k < 5 ==>
              !Retest(DefaultConfig, StepAll(DefaultConfig, t, Run5(symbol, t0)[..k], trace).0, Run5(symbol, t0)[k])
  {
    hide StepTrack;
    var fs, flag := Run5(symbol, t0), t.retestSeen;
    assert fs[..1][..0] == [] && fs[..2][..1] == fs[..1] && fs[..3][..2] == fs[..2] && fs[..4][..3] == fs[..3]
           && fs[..5][..4] == fs[..4] && fs[..5] == fs;
    var t1 := StepTrack(DefaultConfig, t, fs[0], Reversal, trace).0;
    ImpulseStep(t, symbol, t0, trace);
    var t2 := StepTrack(DefaultConfig, t1, fs[1], Reversal, trace).0;
    ConfirmStep(t1, symbol, t0, t0 + 1000.0, flag, trace);
    var t3 := StepTrack(DefaultConfig, t2, fs[2], Reversal, trace).0;
    ExhaustionStep(t2, symbol, t0 + 1000.0, t0 + 10000.0, flag, trace);
    FailureStep(t3, symbol, t0 + 10000.0, t0 + 11000.0, flag, trace);
    var t4 := StepTrack(DefaultConfig, t3, fs[3], Reversal, trace).0;
    if flag {
      EntryStep(t4, symbol, t0 + 11000.0, t0 + 12000.0, trace);
    } else {
      FailureStep(t4, symbol, t0 + 10000.0, t0 + 12000.0, false, trace);
    }
    assert StepAll(DefaultConfig, t, fs[..1], trace).0 == t1;
    assert StepAll(DefaultConfig, t, fs[..2], trace).0 == t2;
    assert StepAll(DefaultConfig, t, fs[..3], trace).0 == t3;
    assert StepAll(DefaultConfig, t, fs[..4], trace).0 == t4;
    assert StepAll(DefaultConfig, t, fs, trace) == StepTrack(DefaultConfig, t4, fs[4], Reversal, trace);
    NotRetests(t3, symbol, t0 + 11000.0);
    NotRetests(t4, symbol, t0 + 12000.0);
  }

  lemma NotRetests(t: Track, symbol: string, ts: Time)
    requires t.direction == 1.0 && t.extreme == 100.0
    ensures !Retest(DefaultConfig, t, Burst(symbol, ts, 99.0, 0.5, -1.0))
  {
    Away(Follow(t, Burst(symbol, ts, 99.0, 0.5, -1.0)), Burst(symbol, ts, 99.0, 0.5, -1.0));
    hide NearExtreme;
  }

  // ----- a whole run to a signal without a retest

  lemma {:induction false} RunSnoc(c: Config, gap: Time, w: Watch, events: seq<Event>, w': Watch, e: Event)
    requires Run(c, gap, w, events, w') && Timely(w', gap, e)
    ensures Run(c, gap, w, events + [e], Next(c, w', e))
    decreases |events|
  {
    hide Next, Timely;
    if events == [] {
      assert [e][1..] == [];
      assert Run(c, gap, Next(c, w', e), [], Next(c, w', e));
      assert events + [e] == [e];
    } else {
      assert (events + [e])[1..] == events[1..] + [e];
      RunSnoc(c, gap, Next(c, w, events[0]), events[1..], w', e);
    }
  }

  lemma {:induction false} ToldSnoc(c: Config, s: Tale, events: seq<Event>, s': Tale, e: Event)
    requires Told(c, s, events, s')
    ensures Told(c, s, events + [e], Tell(c, s', e))
    decreases |events|
  {
    hide Tell;
    if events == [] {
      assert [e][1..] == [];
      assert Told(c, Tell(c, s', e), [], Tell(c, s', e));
      assert events + [e] == [e];
    } else {
      assert (events + [e])[1..] == events[1..] + [e];
      ToldSnoc(c, Tell(c, s, events[0]), events[1..], s', e);
    }
  }

  /** A tale that a timely run of the default configuration tells. */
  ghost predicate Tellable(t0: Time, gap: Time, events: seq<Event>, s: Tale) {
    Told(DefaultConfig, Untold(t0), events, s) && Run(DefaultConfig, gap, Begin(t0), events, s.watch)
  }

  function Step(f: Feature, trace: string): Event { Steps(f, Reversal, trace) }

  /** One more evaluation. */
  lemma TellOn(t0: Time, gap: Time, events: seq<Event>, s: Tale, f: Feature, trace: string)
    requires Tellable(t0, gap, events, s) && s.watch.clock == s.watch.lastStep <= f.ts <= s.watch.lastStep + gap
    ensures var s' := Tell(DefaultConfig, s, Step(f, trace));
            && Tellable(t0, gap, events + [Step(f, trace)], s')
            && s'.watch.clock == s'.watch.lastStep == f.ts
            && s'.watch.track == StepTrack(DefaultConfig, s.watch.track, f, Reversal, trace).0
  {
    hide StepTrack, Run, Told, Retest;
    RunSnoc(DefaultConfig, gap, Begin(t0), events, s.watch, Step(f, trace));
    ToldSnoc(DefaultConfig, Untold(t0), events, s, Step(f, trace));
  }

  /** Peers that confirm fast end the episode; the flag stays. */
  lemma DropStep(t: Track, symbol: string, since: Time, ts: Time, trace: string)
    requires InBurst(t, Exhaustion, since, true)
    ensures var f := Burst(symbol, ts, 100.0, 0.5, 0.0).(peerLatency := 1000.0);
            var t' := StepTrack(DefaultConfig, t, f, Reversal, trace).0;
            t'.state == Idle && t'.retestSeen
  {
  }

  /** An episode with a retest that comes to nothing. */
  lemma RetestForNothing(t0: Time, gap: Time, symbol: string, trace: string) returns (events: seq<Event>, s: Tale)
    requires 9000.0 <= gap
    ensures Tellable(t0, gap, events, s) && s.watch.clock == s.watch.lastStep == t0 + 12000.0
    ensures s.watch.track.state == Idle && s.watch.track.retestSeen
  {
    hide StepTrack, Tellable, Tell;
    s, events := Untold(t0), [];
    assert Tellable(t0, gap, events, s) by { StartTellable(t0, gap); }
    var f1, f2 := Burst(symbol, t0, 100.0, 4.0, 0.0), Burst(symbol, t0 + 1000.0, 100.0, 4.0, 0.0);
    var f3, f4 := Burst(symbol, t0 + 10000.0, 99.0, 0.5, 0.0), Burst(symbol, t0 + 11000.0, 100.0, 0.5, 0.0);
    var f5 := Burst(symbol, t0 + 12000.0, 100.0, 0.5, 0.0).(peerLatency := 1000.0);
    ImpulseStep(s.watch.track, symbol, t0, trace);
    TellOn(t0, gap, events, s, f1, trace);
    s, events := Tell(DefaultConfig, s, Step(f1, trace)), events + [Step(f1, trace)];
    ConfirmStep(s.watch.track, symbol, t0, t0 + 1000.0, false, trace);
    TellOn(t0, gap, events, s, f2, trace);
    s, events := Tell(DefaultConfig, s, Step(f2, trace)), events + [Step(f2, trace)];
    ExhaustionStep(s.watch.track, symbol, t0 + 1000.0, t0 + 10000.0, false, trace);
    TellOn(t0, gap, events, s, f3, trace);
    s, events := Tell(DefaultConfig, s, Step(f3, trace)), events + [Step(f3, trace)];
    RetestStep(s.watch.track, symbol, t0 + 10000.0, t0 + 11000.0, false, trace);
    TellOn(t0, gap, events, s, f4, trace);
    s, events := Tell(DefaultConfig, s, Step(f4, trace)), events + [Step(f4, trace)];
    DropStep(s.watch.track, symbol, t0 + 10000.0, t0 + 12000.0, trace);
    TellOn(t0, gap, events, s, f5, trace);
    s, events := Tell(DefaultConfig, s, Step(f5, trace)), events + [Step(f5, trace)];
  }

  lemma StartTellable(t0: Time, gap: Time)
    ensures Tellable(t0, gap, [], Untold(t0))
  {
  }

  lemma TellKept(s: Tale, f: Feature, trace: string)
    requires Armed(s.watch.track.state) && !Retest(DefaultConfig, s.watch.track, f)
    ensures var s' := Tell(DefaultConfig, s, Step(f, trace)); s'.carried == s.carried && s'.retested == s.retested
  {
    hide StepTrack, Retest;
  }

  lemma TellArmed(s: Tale, f: Feature, trace: string)
    requires s.watch.track.state == Idle
    requires StepTrack(DefaultConfig, s.watch.track, f, Reversal, trace).0.state == Impulse
    ensures var s' := Tell(DefaultConfig, s, Step(f, trace)); s'.carried == s.watch.track.retestSeen && !s'.retested
  {
    hide StepTrack, Retest;
  }

  lemma OtherState(t: Track, f: Feature)
    requires t.state != Exhaustion
    ensures !Retest(DefaultConfig, t, f)
  {
  }

  /**
   An input: after an episode whose retest came to nothing, the next episode signals without any retest of its own.
   */
  lemma SignalWithoutRetest(t0: Time, gap: Time, symbol: string, trace: string)
    returns (events: seq<Event>, s: Tale, e: Event)
    requires 9000.0 <= gap
    ensures Tellable(t0, gap, events, s) && Timely(s.watch, gap, e) && Emitted(DefaultConfig, s.watch, e).Some?
    ensures s.carried && !s.retested
  {
    events, s := RetestForNothing(t0, gap, symbol, trace);
    hide StepTrack, Tellable, Tell, Retest;
    var t1 := t0 + 12000.0;
    var fs := Run5(symbol, t1);
    ImpulseStep(s.watch.track, symbol, t1, trace);
    TellOn(t0, gap, events, s, fs[0], trace);
    TellArmed(s, fs[0], trace);
    s, events := Tell(DefaultConfig, s, Step(fs[0], trace)), events + [Step(fs[0], trace)];
    ConfirmStep(s.watch.track, symbol, t1, t1 + 1000.0, true, trace);
    TellOn(t0, gap, events, s, fs[1], trace);
    OtherState(s.watch.track, fs[1]);
    TellKept(s, fs[1], trace);
    s, events := Tell(DefaultConfig, s, Step(fs[1], trace)), events + [Step(fs[1], trace)];
    ExhaustionStep(s.watch.track, symbol, t1 + 1000.0, t1 + 10000.0, true, trace);
    TellOn(t0, gap, events, s, fs[2], trace);
    OtherState(s.watch.track, fs[2]);
    TellKept(s, fs[2], trace);
    s, events := Tell(DefaultConfig, s, Step(fs[2], trace)), events + [Step(fs[2], trace)];
    FailureStep(s.watch.track, symbol, t1 + 10000.0, t1 + 11000.0, true, trace);
    TellOn(t0, gap, events, s, fs[3], trace);
    NotRetests(s.watch.track, symbol, t1 + 11000.0);
    TellKept(s, fs[3], trace);
    s, events := Tell(DefaultConfig, s, Step(fs[3], trace)), events + [Step(fs[3], trace)];
    EntryStep(s.watch.track, symbol, t1 + 11000.0, t1 + 12000.0, trace);
    e := Step(fs[4], trace);
  }
}
