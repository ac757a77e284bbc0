/** The per-symbol signal state machine: impulse, confirmation, exhaustion, failed retest, entry. */
module Fsm {
  import opened Wrappers
  import opened RealMath
  import opened Models

  /** Keeps quotients and thresholds away from zero. */
  const FLOOR := 0.000000001

  datatype SState = Idle | Impulse | ConfirmWait | Exhaustion | FailedRetest | Entry | Manage | Exit | Cooldown

  /** Times in milliseconds. */
  datatype Config = Config(
    impulseZ: real, minVelocity: real,
    confirmWait: Time, impulseTimeout: Time, exhaustionTimeout: Time, retestTimeout: Time,
    retestTolerance: real, cooldown: Time, maxPeerLatency: real, velocityFlip: real, minReplenishment: real,
    stopBps: real, targetReversion: real)

  datatype Feature = Feature(
    symbol: string, ts: Time, mid: real, residualReturn: real, residualZ: real, velocity: real, acceleration: real,
    peerLatency: real, flow: real, impactDecay: real, microprice: real,
    replenishment: real, replenishmentConfidence: real)

  datatype Edge = Edge(from: SState, to: SState, ts: Time)

  datatype Track = Track(
    state: SState, direction: real, enteredAt: Option<Time>, impulseStart: Option<Time>, extreme: real,
    peakVelocity: real, peakZ: real, retestSeen: bool, cooldownUntil: Option<Time>, history: seq<Edge>)

  const Unseen := Track(Idle, 0.0, None, None, 0.0, 0.0, 0.0, false, None, [])

  function Go(t: Track, to: SState, ts: Time): Track {
    t.(state := to, enteredAt := Some(ts), history := t.history + [Edge(t.state, to, ts)])
  }

  predicate Armed(s: SState) { s in {Impulse, ConfirmWait, Exhaustion, FailedRetest} }

  predicate ImpulseSeen(c: Config, f: Feature) { Abs(f.residualZ) >= c.impulseZ && Abs(f.velocity) >= c.minVelocity }

  function Arm(t: Track, f: Feature): Track {
    Go(t.(direction := if f.residualZ > 0.0 then 1.0 else -1.0, impulseStart := Some(f.ts), extreme := f.mid,
          peakVelocity := Abs(f.velocity), peakZ := Abs(f.residualZ)), Impulse, f.ts)
  }

  /** Running extremes of the burst, kept in every armed state. */
  function Follow(t: Track, f: Feature): Track {
    t.(extreme := if t.direction * (f.mid - t.extreme) > 0.0 then f.mid else t.extreme,
       peakVelocity := Max(t.peakVelocity, Abs(f.velocity)), peakZ := Max(t.peakZ, Abs(f.residualZ)))
  }

  predicate PeersConfirmedFast(c: Config, f: Feature) { 0.0 <= f.peerLatency <= c.maxPeerLatency }

  predicate Exhausted(c: Config, t: Track, f: Feature) {
    && Abs(f.velocity) <= c.velocityFlip * Max(t.peakVelocity, FLOOR)
    && f.impactDecay > 0.15
    && (t.direction * f.flow < 0.35 || t.direction * f.acceleration < 0.0)
  }

  predicate NearExtreme(c: Config, t: Track, f: Feature) {
    t.direction * (t.extreme - f.mid) / Max(f.mid, FLOOR) * 10000.0 <= c.retestTolerance
  }

  predicate BookAgainst(c: Config, t: Track, f: Feature) {
    || t.direction * f.microprice < 0.0
    || (t.direction * f.replenishment < 0.0 && f.replenishmentConfidence >= c.minReplenishment)
  }

  function StopPrice(c: Config, t: Track): real { t.extreme * (1.0 + t.direction * c.stopBps / 10000.0) }

  function TargetPrice(c: Config, t: Track, f: Feature): real {
    f.mid * (1.0 - t.direction * (Abs(f.residualReturn) * c.targetReversion))
  }

  function SignalOf(c: Config, t: Track, f: Feature, trace: string): Signal {
    Signal(f.symbol, f.ts, if t.direction > 0.0 then Sell else Buy, Reversal, t.peakZ, f.mid, StopPrice(c, t),
           TargetPrice(c, t, f), trace)
  }

  function Dwell(t: Track, ts: Time): Time { if t.enteredAt.Some? then ts - t.enteredAt.value else 0.0 }

  /** One evaluation of an armed track whose extremes are up to date and that nothing invalidates. */
  function Advance(c: Config, t: Track, f: Feature, dwell: Time, trace: string): (Track, Option<Signal>) {
    match t.state
    case Impulse =>
      (if dwell > c.impulseTimeout then Go(t, Idle, f.ts)
       else if Abs(f.residualZ) < c.impulseZ * 0.5 then Go(t, Idle, f.ts)
       else Go(t, ConfirmWait, f.ts), None)
    case ConfirmWait =>
      (if dwell < c.confirmWait then t
       else if Exhausted(c, t, f) then Go(t, Exhaustion, f.ts)
       else if dwell > c.impulseTimeout then Go(t, Idle, f.ts)
       else t, None)
    case Exhaustion =>
      (if dwell > c.exhaustionTimeout then Go(t, Idle, f.ts)
       else if NearExtreme(c, t, f) then t.(retestSeen := true)
       else if t.retestSeen && BookAgainst(c, t, f) then Go(t, FailedRetest, f.ts)
       else t, None)
    case FailedRetest =>
      if dwell > c.retestTimeout then (Go(t, Idle, f.ts), None)
      else if t.direction * (f.mid - t.extreme) > 0.0 then (Go(t, ConfirmWait, f.ts), None)
      else (Go(t, SState.Entry, f.ts), Some(SignalOf(c, t, f, trace)))
    case _ => (t, None)
  }

  /** `step` for one track; `trace` is the random id a signal gets. */
  function StepTrack(c: Config, t: Track, f: Feature, action: GovernorAction, trace: string): (Track, Option<Signal>) {
    if t.state == Cooldown then
      (if t.cooldownUntil.Some? && f.ts >= t.cooldownUntil.value then Go(t, Idle, f.ts) else t, None)
    else if t.state in {SState.Entry, Manage, SState.Exit} then (t, None)
    else if t.state == Idle then
      (if action.NoTrade? || !ImpulseSeen(c, f) then t else Arm(t, f), None)
    else
      var t' := Follow(t, f);
      if action.NoTrade? || PeersConfirmedFast(c, f) then (Go(t', Idle, f.ts), None)
      else Advance(c, t', f, Dwell(t, f.ts), trace)
  }

  function Closed(c: Config, t: Track, ts: Time): Track {
    Go(t, Cooldown, ts).(cooldownUntil := Some(ts + c.cooldown))
  }

  function EntryFilled(t: Track, ts: Time): Track { if t.state == SState.Entry then Go(t, Manage, ts) else t }

  function EntryFailed(c: Config, t: Track, ts: Time): Track {
    if t.state == SState.Entry then Go(t, Cooldown, ts).(cooldownUntil := Some(ts + c.cooldown / 2.0)) else t
  }

  type Tracks = map<string, Track>

  function TrackOf(tracks: Tracks, symbol: string): Track { if symbol in tracks then tracks[symbol] else Unseen }

  class SignalStateMachine {
    const cfg: Config
    var tracks: Tracks

    constructor (cfg: Config)
      ensures this.cfg == cfg && tracks == map[]
    {
      this.cfg := cfg;
      tracks := map[];
    }

    method OnPositionClosed(symbol: string, ts: Time)
      modifies this
      ensures tracks == old(tracks)[symbol := Closed(cfg, TrackOf(old(tracks), symbol), ts)]
    {
      var t := Go(TrackOf(tracks, symbol), Cooldown, ts);
      t := t.(cooldownUntil := Some(ts + cfg.cooldown));
      tracks := tracks[symbol := t];
    }

    method OnEntryFill(symbol: string, ts: Time)
      modifies this
      ensures tracks == old(tracks)[symbol := EntryFilled(TrackOf(old(tracks), symbol), ts)]
    {
      var t := TrackOf(tracks, symbol);
      if t.state == SState.Entry {
        t := Go(t, Manage, ts);
      }
      tracks := tracks[symbol := t];
    }

    method OnEntryFailed(symbol: string, ts: Time)
      modifies this
      ensures tracks == old(tracks)[symbol := EntryFailed(cfg, TrackOf(old(tracks), symbol), ts)]
    {
      var t := TrackOf(tracks, symbol);
      if t.state == SState.Entry {
        t := Go(t, Cooldown, ts);
        t := t.(cooldownUntil := Some(ts + cfg.cooldown / 2.0));
      }
      tracks := tracks[symbol := t];
    }

    method Step(f: Feature, action: GovernorAction, trace: string) returns (signal: Option<Signal>)
      modifies this
      ensures var (t, sig) := StepTrack(cfg, TrackOf(old(tracks), f.symbol), f, action, trace);
              tracks == old(tracks)[f.symbol := t] && signal == sig
    {
      hide Exhausted, NearExtreme, BookAgainst, StopPrice, TargetPrice, ImpulseSeen;
      var t := TrackOf(tracks, f.symbol);
      var dwell := Dwell(t, f.ts);
      signal := None;
      if t.state == Cooldown {
        if t.cooldownUntil.Some? && f.ts >= t.cooldownUntil.value {
          t := Go(t, Idle, f.ts);
        }
      } else if t.state in {SState.Entry, Manage, SState.Exit} {
        // the order and position lifecycle owns these states
      } else if t.state == Idle {
        if !action.NoTrade? && ImpulseSeen(cfg, f) {
          t := Arm(t, f);
        }
      } else {
        if t.direction * (f.mid - t.extreme) > 0.0 {
          t := t.(extreme := f.mid);
        }
        t := t.(peakVelocity := Max(t.peakVelocity, Abs(f.velocity)));
        t := t.(peakZ := Max(t.peakZ, Abs(f.residualZ)));
        if action.NoTrade? {
          t := Go(t, Idle, f.ts);
        } else if PeersConfirmedFast(cfg, f) {
          t := Go(t, Idle, f.ts);
        } else {
          match t.state {
            case Impulse =>
              if dwell > cfg.impulseTimeout {
                t := Go(t, Idle, f.ts);
              } else if Abs(f.residualZ) < cfg.impulseZ * 0.5 {
                t := Go(t, Idle, f.ts);
              } else {
                t := Go(t, ConfirmWait, f.ts);
              }
            case ConfirmWait =>
              if dwell >= cfg.confirmWait {
                if Exhausted(cfg, t, f) {
                  t := Go(t, Exhaustion, f.ts);
                } else if dwell > cfg.impulseTimeout {
                  t := Go(t, Idle, f.ts);
                }
              }
            case Exhaustion =>
              if dwell > cfg.exhaustionTimeout {
                t := Go(t, Idle, f.ts);
              } else if NearExtreme(cfg, t, f) {
                t := t.(retestSeen := true);
              } else if t.retestSeen {
                if BookAgainst(cfg, t, f) {
                  t := Go(t, FailedRetest, f.ts);
                }
              }
            case FailedRetest =>
              if dwell > cfg.retestTimeout {
                t := Go(t, Idle, f.ts);
              } else if t.direction * (f.mid - t.extreme) > 0.0 {
                t := Go(t, ConfirmWait, f.ts);
              } else {
                signal := Some(SignalOf(cfg, t, f, trace));
                t := Go(t, SState.Entry, f.ts);
              }
            case _ =>
          }
        }
      }
      tracks := tracks[f.symbol := t];
    }
  }

  /** While an order or a position is out, evaluations change nothing: only the lifecycle callbacks lead on. */
  lemma OwnedStates(c: Config, t: Track, f: Feature, action: GovernorAction, trace: string)
    requires t.state in {SState.Entry, Manage, SState.Exit}
    ensures StepTrack(c, t, f, action, trace) == (t, None)
  {
  }

  /** The edge back from a failed retest to confirmation cannot be taken: the extreme has just been moved. */
  lemma RearmUnreachable(c: Config, t: Track, f: Feature, action: GovernorAction, trace: string)
    requires t.state == FailedRetest && t.direction in {1.0, -1.0}
    ensures StepTrack(c, t, f, action, trace).0.state in {Idle, SState.Entry}
  {
    hide StopPrice, TargetPrice;
  }

  /** Once a retest has been seen it counts for every later episode too: nothing resets the flag. */
  lemma RetestNeverForgotten(c: Config, t: Track, f: Feature, action: GovernorAction, trace: string, ts: Time)
    requires t.retestSeen
    ensures StepTrack(c, t, f, action, trace).0.retestSeen
    ensures Closed(c, t, ts).retestSeen && EntryFilled(t, ts).retestSeen && EntryFailed(c, t, ts).retestSeen
  {
    hide StopPrice, TargetPrice, NearExtreme, Exhausted, BookAgainst;
  }
}
