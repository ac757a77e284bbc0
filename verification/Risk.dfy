/** The daily ledger and the drawdown governor it restores. */
module Drawdown {
  import opened Wrappers
  import opened RealMath
  import opened Models

  datatype Kind = TradeClosed(pnl: real) | Halt | HaltCleared

  datatype LedgerRow = LedgerRow(day: int, kind: Kind)

  datatype DayState = DayState(realized: real, losses: nat, trades: nat, halted: bool)

  const NewDay := DayState(0.0, 0, 0, false)

  function Counted(s: DayState, kind: Kind): DayState {
    match kind
    case TradeClosed(pnl) => DayState(s.realized + pnl, if pnl > 0.0 then 0 else s.losses + 1, s.trades + 1, s.halted)
    case Halt => s.(halted := true)
    case HaltCleared => s.(halted := false)
  }

  function DayOf(rows: seq<LedgerRow>, day: int): DayState {
    if rows == [] then NewDay else
    var s, row := DayOf(rows[..|rows| - 1], day), rows[|rows| - 1];
    if row.day == day then Counted(s, row.kind) else s
  }

  lemma DayOfSnoc(rows: seq<LedgerRow>, row: LedgerRow, day: int)
    ensures DayOf(rows + [row], day) == if row.day == day then Counted(DayOf(rows, day), row.kind) else DayOf(rows, day)
  {
    assert (rows + [row])[..|rows|] == rows;
  }

  class RiskLedger {
    var rows: seq<LedgerRow>

    constructor (rows: seq<LedgerRow>)
      ensures this.rows == rows
    {
      this.rows := rows;
    }

    method Append(kind: Kind, today: int)
      modifies this
      ensures rows == old(rows) + [LedgerRow(today, kind)]
    {
      rows := rows + [LedgerRow(today, kind)];
    }

    method LoadDay(day: int) returns (state: DayState)
      ensures state == DayOf(rows, day)
    {
      state := NewDay;
      for i := 0 to |rows|
        invariant state == DayOf(rows[..i], day)
      {
        assert rows[..i + 1] == rows[..i] + [rows[i]];
        DayOfSnoc(rows[..i], rows[i], day);
        if rows[i].day == day {
          match rows[i].kind {
            case TradeClosed(pnl) =>
              state := state.(realized := state.realized + pnl, trades := state.trades + 1,
                              losses := if pnl > 0.0 then 0 else state.losses + 1);
            case Halt => state := state.(halted := true);
            case HaltCleared => state := state.(halted := false);
          }
        }
      }
      assert rows[..|rows|] == rows;
    }
  }

  /** The governor's memory. */
  datatype Governor = Governor(realized: real, peak: real, halted: bool)

  const Calm := Governor(0.0, 0.0, false)

  function Loss(g: Governor): real { g.peak - g.realized }

  function Booked(g: Governor, limit: real, pnl: real): Governor {
    var realized := g.realized + pnl;
    var peak := Max(g.peak, realized);
    Governor(realized, peak, g.halted || peak - realized >= limit)
  }

  function Restored(s: DayState): Governor { Governor(s.realized, Max(0.0, s.realized), s.halted) }

  class PortfolioRisk {
    const limit: real
    const ledger: RiskLedger
    var peak: real
    var realized: real
    var halted: bool

    ghost function State(): Governor
      reads this
    {
      Governor(realized, peak, halted)
    }

    constructor (limit: real, ledger: RiskLedger)
      ensures this.limit == limit && this.ledger == ledger && State() == Calm
    {
      this.limit, this.ledger := limit, ledger;
      peak, realized, halted := 0.0, 0.0, false;
    }

    method Restore(today: int)
      modifies this
      ensures State() == Restored(DayOf(ledger.rows, today))
    {
      var day := ledger.LoadDay(today);
      realized := day.realized;
      peak := Max(0.0, realized);
      halted := day.halted;
    }

    /** Halting is written to the ledger the first time the drawdown reaches the limit. */
    method OnTradeClosed(pnl: real, today: int)
      modifies this, ledger
      ensures State() == Booked(old(State()), limit, pnl)
      ensures ledger.rows == old(ledger.rows) + (if halted && !old(halted) then [LedgerRow(today, Halt)] else [])
    {
      realized := realized + pnl;
      peak := Max(peak, realized);
      if peak - realized >= limit && !halted {
        halted := true;
        ledger.Append(Halt, today);
      }
    }
  }

  // ----- the risk manager's own accounting

  datatype Limits = Limits(maxLosses: nat, symbolCooldown: Time, strategyCooldown: Time)

  /** Realized P&L, the losing streak, the cooldowns that losses start, and the symbols with a position. */
  datatype Totals = Totals(realized: real, losses: nat, symbolUntil: map<string, Time>, strategyUntil: Option<Time>,
                           held: set<string>)

  const Untraded := Totals(0.0, 0, map[], None, {})

  function Holding(t: Totals, symbols: set<string>): Totals { t.(held := t.held + symbols) }

  function Tallied(limits: Limits, t: Totals, symbol: string, pnl: real, now: Time): Totals {
    var losses := if pnl < 0.0 then t.losses + 1 else 0;
    var paused := losses >= limits.maxLosses;
    Totals(t.realized + pnl, if paused then 0 else losses,
           if pnl < 0.0 then t.symbolUntil[symbol := now + limits.symbolCooldown] else t.symbolUntil,
           if paused then Some(now + limits.strategyCooldown) else t.strategyUntil, t.held - {symbol})
  }

  class RiskManager {
    const limits: Limits
    var totals: Totals

    constructor (limits: Limits)
      ensures this.limits == limits && totals == Untraded
    {
      this.limits := limits;
      totals := Untraded;
    }

    method OnTradeClosed(symbol: string, pnl: real, now: Time)
      modifies this
      ensures totals == Tallied(limits, old(totals), symbol, pnl, now)
    {
      totals := totals.(realized := totals.realized + pnl);
      if pnl < 0.0 {
        totals := totals.(losses := totals.losses + 1,
                          symbolUntil := totals.symbolUntil[symbol := now + limits.symbolCooldown]);
      } else {
        totals := totals.(losses := 0);
      }
      if totals.losses >= limits.maxLosses {
        totals := totals.(strategyUntil := Some(now + limits.strategyCooldown));
        totals := totals.(losses := 0);
      }
      totals := totals.(held := totals.held - {symbol});
    }

    /** `positions[symbol] = ...` for each symbol. */
    method Hold(symbols: set<string>)
      modifies this
      ensures totals == Holding(old(totals), symbols)
    {
      totals := totals.(held := totals.held + symbols);
    }
  }

  /**
   The streak a restart would read from the ledger follows the live one through a trade exactly when the trade
   gained, or lost without starting the strategy cooldown: a flat trade counts as a loss in the ledger only, and
   the cooldown resets the live streak only.
   */
  lemma StreakRestored(limits: Limits, t: Totals, s: DayState, symbol: string, pnl: real, now: Time)
    requires t.losses == s.losses
    ensures Tallied(limits, t, symbol, pnl, now).losses == Counted(s, TradeClosed(pnl)).losses
            <==> 0.0 < pnl || (pnl < 0.0 && t.losses + 1 < limits.maxLosses)
  {
  }

  /**
   A losing trade pauses its own symbol, and no other, for the symbol cooldown; any other trade leaves the pauses as
   they are.  The strategy is paused by the loss that completes a streak, and the streak starts over.
   */
  lemma LossPauses(limits: Limits, t: Totals, symbol: string, pnl: real, now: Time, x: string)
    requires t.losses < limits.maxLosses
    ensures var t', lost := Tallied(limits, t, symbol, pnl, now), pnl < 0.0;
            && (x in t'.symbolUntil <==> x in t.symbolUntil || (lost && x == symbol))
            && (x in t'.symbolUntil ==>
                  t'.symbolUntil[x] == if lost && x == symbol then now + limits.symbolCooldown else t.symbolUntil[x])
            && (lost && t.losses == limits.maxLosses - 1 ==>
                  t'.losses == 0 && t'.strategyUntil == Some(now + limits.strategyCooldown))
            && (!(lost && t.losses == limits.maxLosses - 1) ==>
                  t'.losses == (if lost then t.losses + 1 else 0) && t'.strategyUntil == t.strategyUntil)
            && t'.losses < limits.maxLosses
            && t'.realized == t.realized + pnl && (x in t'.held <==> x in t.held && x != symbol)
  {
  }

  // ----- the ledger's day

  /** What the trades closed on a day made, in order. */
  function PnlsOf(rows: seq<LedgerRow>, day: int): seq<real> {
    if rows == [] then [] else
    var front, row := PnlsOf(rows[..|rows| - 1], day), rows[|rows| - 1];
    if row.day == day && row.kind.TradeClosed? then front + [row.kind.pnl] else front
  }

  /** The last halt of the day has not been cleared. */
  ghost predicate HaltStands(rows: seq<LedgerRow>, day: int) {
    exists i :: StandsAt(rows, day, i)
  }

  ghost predicate StandsAt(rows: seq<LedgerRow>, day: int, i: int) {
    0 <= i < |rows| && rows[i] == LedgerRow(day, Halt)
    && forall j :: i < j < |rows| ==> rows[j] != LedgerRow(day, HaltCleared)
  }

  lemma HaltStandsNext(rows: seq<LedgerRow>, row: LedgerRow, day: int)
    ensures HaltStands(rows + [row], day)
            <==> row == LedgerRow(day, Halt) || (HaltStands(rows, day) && row != LedgerRow(day, HaltCleared))
  {
    var all := rows + [row];
    if row == LedgerRow(day, Halt) {
      assert StandsAt(all, day, |rows|);
    } else if HaltStands(rows, day) && row != LedgerRow(day, HaltCleared) {
      var i :| StandsAt(rows, day, i);
      assert StandsAt(all, day, i);
    }
    if HaltStands(all, day) && row != LedgerRow(day, Halt) {
      var i :| StandsAt(all, day, i);
      assert forall j :: i < j < |rows| ==> rows[j] == all[j];
      assert rows[i] == all[i];
      assert StandsAt(rows, day, i);
      assert all[|rows|] == row;
    }
  }

  /** The streak ends the day: all its trades failed to gain, and the trade before it, if any, gained. */
  predicate StreakAtEnd(pnls: seq<real>, losses: nat) {
    && losses <= |pnls| && (forall k :: |pnls| - losses <= k < |pnls| ==> pnls[k] <= 0.0)
    && (losses < |pnls| ==> 0.0 < pnls[|pnls| - losses - 1])
  }

  /** What a restart reads for a day: total and count of its trades, the streak it ends with, the halt in force. */
  lemma {:induction false} DayIs(rows: seq<LedgerRow>, day: int)
    ensures var s, pnls := DayOf(rows, day), PnlsOf(rows, day);
            && s.trades == |pnls| && s.realized == Prefix(pnls, |pnls|) && StreakAtEnd(pnls, s.losses)
            && (s.halted <==> HaltStands(rows, day))
  {
    if rows == [] {
    } else {
      var front, row := rows[..|rows| - 1], rows[|rows| - 1];
      assert rows == front + [row];
      DayIs(front, day);
      HaltStandsNext(front, row, day);
      hide HaltStands;
      if row.day == day && row.kind.TradeClosed? { PrefixAll(PnlsOf(front, day), row.kind.pnl); }
    }
  }

  lemma PrefixAll(pnls: seq<real>, pnl: real)
    ensures Prefix(pnls + [pnl], |pnls| + 1) == Prefix(pnls, |pnls|) + pnl
  {
    PrefixSnoc(pnls, pnl, |pnls|);
  }

  // ----- maximum drawdown

  /** The P&L after the first k trades. */
  function Prefix(pnls: seq<real>, k: nat): real
    requires k <= |pnls|
  {
    if k == 0 then 0.0 else Prefix(pnls, k - 1) + pnls[k - 1]
  }

  function Trade(limit: real, pnls: seq<real>): Governor {
    if pnls == [] then Calm else Booked(Trade(limit, pnls[..|pnls| - 1]), limit, pnls[|pnls| - 1])
  }

  /** From some point of the day to some later one, P&L has dropped by at least the limit. */
  ghost predicate Dropped(pnls: seq<real>, limit: real) {
    exists i: nat, j: nat :: i <= j <= |pnls| && 1 <= j && Prefix(pnls, i) - Prefix(pnls, j) >= limit
  }

  lemma {:induction false} PrefixSnoc(pnls: seq<real>, pnl: real, k: nat)
    requires k <= |pnls|
    ensures Prefix(pnls + [pnl], k) == Prefix(pnls, k)
  {
    if k > 0 { PrefixSnoc(pnls, pnl, k - 1); }
  }

  lemma {:induction false} PeakIsMaximum(limit: real, pnls: seq<real>)
    ensures Trade(limit, pnls).realized == Prefix(pnls, |pnls|)
    ensures forall i: nat :: i <= |pnls| ==> Prefix(pnls, i) <= Trade(limit, pnls).peak
    ensures exists i: nat :: i <= |pnls| && Prefix(pnls, i) == Trade(limit, pnls).peak
  {
    if pnls == [] {
      assert Prefix(pnls, 0) == Trade(limit, pnls).peak;
    } else {
      var front, n := pnls[..|pnls| - 1], |pnls|;
      assert pnls == front + [pnls[n - 1]];
      PeakIsMaximum(limit, front);
      forall i: nat | i < n ensures Prefix(pnls, i) == Prefix(front, i) {
        PrefixSnoc(front, pnls[n - 1], i);
      }
      if Trade(limit, pnls).peak == Trade(limit, front).peak {
        var i: nat :| i <= |front| && Prefix(front, i) == Trade(limit, front).peak;
        assert Prefix(pnls, i) == Trade(limit, pnls).peak;
      } else {
        assert Prefix(pnls, n) == Trade(limit, pnls).peak;
      }
    }
  }

  /** Started fresh, trading halts exactly when the P&L of the day has dropped by the limit from an earlier high. */
  lemma {:induction false} HaltedIffDropped(limit: real, pnls: seq<real>)
    ensures Trade(limit, pnls).halted <==> Dropped(pnls, limit)
  {
    if pnls != [] {
      var front, n := pnls[..|pnls| - 1], |pnls|;
      assert pnls == front + [pnls[n - 1]];
      HaltedIffDropped(limit, front);
      PeakIsMaximum(limit, pnls);
      forall i: nat | i < n ensures Prefix(pnls, i) == Prefix(front, i) {
        PrefixSnoc(front, pnls[n - 1], i);
      }
      var g := Trade(limit, pnls);
      if Trade(limit, front).halted {
        var i: nat, j: nat :| i <= j <= |front| && 1 <= j && Prefix(front, i) - Prefix(front, j) >= limit;
        assert Prefix(pnls, i) - Prefix(pnls, j) >= limit;
      } else if Loss(g) >= limit {
        var i: nat :| i <= n && Prefix(pnls, i) == g.peak;
        assert Prefix(pnls, i) - Prefix(pnls, n) >= limit;
      }
    }
  }

  // ----- restarts

  datatype Event = Closed(pnl: real) | Restart

  datatype Session = Session(governor: Governor, rows: seq<LedgerRow>)

  /** The engine closes a trade: the governor first, which may write a halt, then the trade's own row. */
  function Next(s: Session, limit: real, today: int, e: Event): Session {
    match e
    case Closed(pnl) =>
      var g := Booked(s.governor, limit, pnl);
      var halts := if g.halted && !s.governor.halted then [LedgerRow(today, Halt)] else [];
      Session(g, (s.rows + halts) + [LedgerRow(today, TradeClosed(pnl))])
    case Restart => s.(governor := Restored(DayOf(s.rows, today)))
  }

  function Day(s: Session, limit: real, today: int, events: seq<Event>): Session
    decreases |events|
  {
    if events == [] then s else Day(Next(s, limit, today, events[0]), limit, today, events[1..])
  }

  ghost predicate InStep(s: Session, today: int) {
    && s.governor.realized == DayOf(s.rows, today).realized
    && s.governor.halted == DayOf(s.rows, today).halted
    && s.governor.peak >= Max(0.0, s.governor.realized)
  }

  lemma NextInStep(s: Session, limit: real, today: int, e: Event)
    requires InStep(s, today)
    ensures InStep(Next(s, limit, today, e), today)
    ensures s.governor.halted ==> Next(s, limit, today, e).governor.halted
  {
    if e.Closed? {
      DayOfSnoc(s.rows, LedgerRow(today, Halt), today);
      DayOfSnoc(s.rows, LedgerRow(today, TradeClosed(e.pnl)), today);
      DayOfSnoc(s.rows + [LedgerRow(today, Halt)], LedgerRow(today, TradeClosed(e.pnl)), today);
      assert s.rows + [] == s.rows;
    }
    hide DayOf;
  }

  lemma {:induction false} DayInStep(s: Session, limit: real, today: int, events: seq<Event>)
    requires InStep(s, today)
    ensures InStep(Day(s, limit, today, events), today)
    ensures s.governor.halted ==> Day(s, limit, today, events).governor.halted
    decreases |events|
  {
    hide Next, InStep;
    if events != [] {
      NextInStep(s, limit, today, events[0]);
      DayInStep(Next(s, limit, today, events[0]), limit, today, events[1..]);
    }
  }

  /**
   A restart at any point of a day, itself with any restarts before it: the halt survives, the realized P&L is
   the ledger's sum, and the drawdown reported is never larger than before.  It is the same exactly when the
   day stood at its high, or had never been above zero.
   */
  lemma RestartKeepsHalt(rows: seq<LedgerRow>, limit: real, today: int, events: seq<Event>)
    requires DayOf(rows, today) == NewDay
    ensures var live := Day(Session(Calm, rows), limit, today, events);
            var back := Next(live, limit, today, Restart).governor;
            && back.halted == live.governor.halted
            && back.realized == live.governor.realized == DayOf(live.rows, today).realized
            && Loss(back) <= Loss(live.governor)
            && (Loss(back) == Loss(live.governor)
                <==> live.governor.peak == live.governor.realized || live.governor.peak == 0.0)
  {
    DayInStep(Session(Calm, rows), limit, today, events);
    hide DayOf, Day;
  }

  /** How many halts the ledger records. */
  function Halts(rows: seq<LedgerRow>): nat {
    if rows == [] then 0 else Halts(rows[..|rows| - 1]) + (if rows[|rows| - 1].kind.Halt? then 1 else 0)
  }

  lemma HaltsNext(rows: seq<LedgerRow>, row: LedgerRow)
    ensures Halts(rows + [row]) == Halts(rows) + if row.kind.Halt? then 1 else 0
  {
    assert (rows + [row])[..|rows|] == rows;
  }

  lemma HaltsStep(s: Session, limit: real, today: int, e: Event)
    requires InStep(s, today)
    ensures var s' := Next(s, limit, today, e);
            Halts(s'.rows) - Halts(s.rows) == if s'.governor.halted && !s.governor.halted then 1 else 0
  {
    if e.Closed? {
      HaltsNext(s.rows, LedgerRow(today, Halt));
      HaltsNext(s.rows, LedgerRow(today, TradeClosed(e.pnl)));
      HaltsNext(s.rows + [LedgerRow(today, Halt)], LedgerRow(today, TradeClosed(e.pnl)));
      assert s.rows + [] == s.rows;
    }
    hide DayOf, Halts;
  }

  /** A halt is recorded once, by the trade that causes it, however many trades and restarts follow. */
  lemma {:induction false} HaltWrittenOnce(s: Session, limit: real, today: int, events: seq<Event>)
    requires InStep(s, today)
    ensures var s' := Day(s, limit, today, events);
            Halts(s'.rows) - Halts(s.rows) == if s'.governor.halted && !s.governor.halted then 1 else 0
    decreases |events|
  {
    hide Next, InStep, Halts;
    if events != [] {
      var s1 := Next(s, limit, today, events[0]);
      HaltsStep(s, limit, today, events[0]);
      NextInStep(s, limit, today, events[0]);
      DayInStep(s1, limit, today, events[1..]);
      HaltWrittenOnce(s1, limit, today, events[1..]);
    }
  }

  lemma DayNext(s: Session, limit: real, today: int, e: Event, rest: seq<Event>)
    ensures Day(s, limit, today, [e] + rest) == Day(Next(s, limit, today, e), limit, today, rest)
  {
    assert ([e] + rest)[1..] == rest;
    hide Next;
  }

  /** A gain given back in full leaves nothing for a restart to measure a drawdown from. */
  lemma RestartAfterRoundTrip(gain: real, limit: real)
    requires 0.0 < gain < limit
    ensures var s2 := Next(Next(Session(Calm, []), limit, 0, Closed(gain)), limit, 0, Closed(-gain));
            var s := Next(s2, limit, 0, Restart);
            s.governor == Calm
  {
    var s1 := Next(Session(Calm, []), limit, 0, Closed(gain));
    assert s1.governor == Governor(gain, gain, false);
    NextInStep(Session(Calm, []), limit, 0, Closed(gain));
    NextInStep(s1, limit, 0, Closed(-gain));
    hide DayOf;
  }

  lemma DroppedAcross(gain: real, loss: real, limit: real)
    requires gain + loss >= limit
    ensures Dropped([gain, -gain, -loss], limit)
  {
    var pnls := [gain, -gain, -loss];
    assert Prefix(pnls, 1) == Prefix(pnls, 0) + pnls[0];
    assert Prefix(pnls, 2) == Prefix(pnls, 1) + pnls[1];
    assert Prefix(pnls, 3) == Prefix(pnls, 2) + pnls[2];
    assert Prefix(pnls, 1) - Prefix(pnls, 3) >= limit;
  }

  /**
   What a restart forgets: after a gain that was given back, a loss below the limit no longer halts, although
   from its high the day has dropped by gain and loss together.
   */
  lemma RestartForgetsHigh(gain: real, loss: real, limit: real)
    requires 0.0 < gain < limit && 0.0 <= loss < limit && gain + loss >= limit
    ensures var s := Day(Session(Calm, []), limit, 0, [Closed(gain), Closed(-gain), Restart, Closed(-loss)]);
            !s.governor.halted && Dropped([gain, -gain, -loss], limit)
  {
    RestartAfterRoundTrip(gain, limit);
    DroppedAcross(gain, loss, limit);
    var s0 := Session(Calm, []);
    var s1 := Next(s0, limit, 0, Closed(gain));
    var s2 := Next(s1, limit, 0, Closed(-gain));
    var s3 := Next(s2, limit, 0, Restart);
    var s4 := Next(s3, limit, 0, Closed(-loss));
    assert !s4.governor.halted;
    hide Dropped, Next;
    var events := [Closed(gain), Closed(-gain), Restart, Closed(-loss)];
    assert events == [Closed(gain)] + ([Closed(-gain)] + ([Restart] + ([Closed(-loss)] + [])));
    DayNext(s0, limit, 0, Closed(gain), [Closed(-gain)] + ([Restart] + ([Closed(-loss)] + [])));
    DayNext(s1, limit, 0, Closed(-gain), [Restart] + ([Closed(-loss)] + []));
    DayNext(s2, limit, 0, Restart, [Closed(-loss)] + []);
    DayNext(s3, limit, 0, Closed(-loss), []);
  }
}

/** Position sizing: the risk and notional budgets of a signal, scaled by the portfolio layer. */
module Sizing {
  import opened RealMath
  import opened Models

  datatype Config = Config(riskPerTrade: real, maxNotional: real, maxShares: real,
                           sizeFloor: real, sizeCap: real, softLoss: real, hardLoss: real,
                           regimes: (real, real, real), targetVolatility: real, maxGross: real)

  /** A reference price of zero with a stop elsewhere divides by zero. */
  predicate Sizable(sig: Signal) { sig.reference != 0.0 || sig.stop == sig.reference }

  /** `RiskManager.size`. */
  function Size(cfg: Config, sig: Signal): real
    requires Sizable(sig)
  {
    var distance := Abs(sig.reference - sig.stop);
    if distance <= 0.0 then 0.0
    else Truncate(Min(Min(cfg.riskPerTrade / distance, cfg.maxNotional / sig.reference), cfg.maxShares)) as real
  }

  function Regime(cfg: Config, regime: int): real {
    if regime <= 0 then cfg.regimes.0 else if regime == 1 then cfg.regimes.1 else cfg.regimes.2
  }

  /** `PortfolioRisk.size_multiplier`. */
  function Multiplier(cfg: Config, regime: int, volatility: real, loss: real): real {
    var m := Regime(cfg, regime);
    var reference := cfg.targetVolatility / Max(cfg.maxGross, DUST) * 10000.0;
    var m' := if volatility > DUST then m * Max(cfg.sizeFloor, Min(cfg.sizeCap, reference / volatility)) else m;
    var m'' := if loss >= cfg.hardLoss then m' * 0.25 else if loss >= cfg.softLoss then m' * 0.5 else m';
    Max(0.0, Min(cfg.sizeCap, m''))
  }

  /** Whole shares of a multiplied size. */
  function Shares(size: real, multiplier: real): real { Truncate(size * multiplier) as real }

  /** The quantity submitted for a signal. */
  function Quantity(cfg: Config, sig: Signal, regime: int, volatility: real, loss: real): real
    requires Sizable(sig)
  {
    Shares(Size(cfg, sig), Multiplier(cfg, regime, volatility, loss))
  }

  lemma TruncateTimes(bound: real, unit: real, size: real)
    requires 0.0 < unit && 0.0 <= bound && 0.0 <= size <= bound / unit
    ensures size * unit <= bound
  {
    ProductOrder(size, bound / unit, unit);
  }

  lemma SizeBounds(cfg: Config, sig: Signal)
    requires 0.0 < sig.reference && 0.0 <= cfg.riskPerTrade && 0.0 <= cfg.maxNotional && 0.0 <= cfg.maxShares
    ensures 0.0 <= Size(cfg, sig)
    ensures Size(cfg, sig) * Abs(sig.reference - sig.stop) <= cfg.riskPerTrade
    ensures Size(cfg, sig) * sig.reference <= cfg.maxNotional
  {
    var distance, size := Abs(sig.reference - sig.stop), Size(cfg, sig);
    if distance > 0.0 {
      NonnegativeQuotient(cfg.riskPerTrade, distance, cfg.riskPerTrade / distance);
      NonnegativeQuotient(cfg.maxNotional, sig.reference, cfg.maxNotional / sig.reference);
      TruncateTimes(cfg.riskPerTrade, distance, size);
      TruncateTimes(cfg.maxNotional, sig.reference, size);
    }
  }

  lemma NonnegativeQuotient(n: real, d: real, q: real)
    requires 0.0 <= n && 0.0 < d && q * d == n
    ensures 0.0 <= q
  {
  }

  lemma MultiplierBounds(cfg: Config, regime: int, volatility: real, loss: real)
    requires 0.0 <= cfg.sizeCap
    ensures 0.0 <= Multiplier(cfg, regime, volatility, loss) <= cfg.sizeCap
  {
    hide Regime;
  }

  lemma ScaledBound(quantity: real, size: real, m: real, cap: real, unit: real, bound: real)
    requires 0.0 <= size && 0.0 <= m <= cap && 0.0 <= unit && 0.0 <= quantity <= size * m && size * unit <= bound
    ensures quantity * unit <= cap * bound
  {
    ProductOrder(quantity, size * m, unit);
    assert (size * m) * unit == (size * unit) * m;
    ProductOrder(size * unit, bound, m);
    ProductOrder(0.0, unit, size);
    ProductOrder(m, cap, bound);
  }

  /**
    At the stop, the quantity loses at most the scaled risk budget; at the reference it costs at most the
    scaled notional.
   */
  predicate WithinBudget(cfg: Config, sig: Signal, quantity: real) {
    && quantity * Abs(sig.reference - sig.stop) <= cfg.sizeCap * cfg.riskPerTrade
    && quantity * sig.reference <= cfg.sizeCap * cfg.maxNotional
  }

  /** Whatever the regime, volatility and drawdown, an entry risks and commits at most the scaled budgets. */
  lemma QuantityWithinBudget(cfg: Config, sig: Signal, regime: int, volatility: real, loss: real)
    requires 0.0 < sig.reference && 0.0 <= cfg.riskPerTrade && 0.0 <= cfg.maxNotional && 0.0 <= cfg.maxShares
    requires 0.0 <= cfg.sizeCap
    ensures var q := Quantity(cfg, sig, regime, volatility, loss);
            0.0 <= q && WithinBudget(cfg, sig, q)
  {
    hide Size, Multiplier;
    SizeBounds(cfg, sig);
    MultiplierBounds(cfg, regime, volatility, loss);
    var size, m := Size(cfg, sig), Multiplier(cfg, regime, volatility, loss);
    ProductOrder(0.0, m, size);
    var q := Quantity(cfg, sig, regime, volatility, loss);
    ScaledBound(q, size, m, cfg.sizeCap, Abs(sig.reference - sig.stop), cfg.riskPerTrade);
    ScaledBound(q, size, m, cfg.sizeCap, sig.reference, cfg.maxNotional);
  }

  // ----- exactly how much

  lemma DividedBy(n: real, d: real, x: real)
    requires 0.0 < d
    ensures x <= n / d <==> x * d <= n
  {
    var q := n / d;
    assert q * d == n;
    if x <= q { ProductOrder(x, q, d); }
    if q < x { PositiveProduct(x - q, d, x * d - q * d); }
  }

  lemma PositiveProduct(a: real, b: real, c: real)
    requires 0.0 < a && 0.0 < b && c == a * b
    ensures 0.0 < c
  {
  }

  /** At the stop, the size loses at most the risk budget, and it stays within the notional and share limits. */
  predicate Allowed(cfg: Config, sig: Signal, size: real) {
    && size * Abs(sig.reference - sig.stop) <= cfg.riskPerTrade
    && size * sig.reference <= cfg.maxNotional
    && size <= cfg.maxShares
  }

  /** The size is the largest whole number of shares that both budgets and the share limit allow. */
  lemma SizeLargest(cfg: Config, sig: Signal, n: int)
    requires 0.0 < sig.reference && sig.stop != sig.reference
    requires 0.0 <= cfg.riskPerTrade && 0.0 <= cfg.maxNotional && 0.0 <= cfg.maxShares
    ensures n as real <= Size(cfg, sig) <==> (n <= 0 || Allowed(cfg, sig, n as real))
  {
    var distance, x := Abs(sig.reference - sig.stop), n as real;
    var a, b := cfg.riskPerTrade / distance, cfg.maxNotional / sig.reference;
    NonnegativeQuotient(cfg.riskPerTrade, distance, a);
    NonnegativeQuotient(cfg.maxNotional, sig.reference, b);
    DividedBy(cfg.riskPerTrade, distance, x);
    DividedBy(cfg.maxNotional, sig.reference, x);
    Whole(Min(Min(a, b), cfg.maxShares), n);
  }

  /** Below a nonnegative bound, a whole number is no more than the truncated bound. */
  lemma Whole(bound: real, n: int)
    requires 0.0 <= bound
    ensures n <= Truncate(bound) <==> n as real <= bound
  {
  }

  lemma NoDistance(cfg: Config, sig: Signal)
    requires sig.stop == sig.reference
    ensures Size(cfg, sig) == 0.0
  {
  }

  // ----- the portfolio layer

  ghost predicate Regular(cfg: Config) {
    && 0.0 <= cfg.regimes.0 && 0.0 <= cfg.regimes.1 && 0.0 <= cfg.regimes.2
    && 0.0 <= cfg.sizeFloor && 0.0 <= cfg.sizeCap && 0.0 <= cfg.targetVolatility
  }

  /** The volatility at which a position of the maximal gross exposure moves by the target, in basis points. */
  function TargetBps(cfg: Config): real { cfg.targetVolatility / Max(cfg.maxGross, DUST) * 10000.0 }

  /** The multiplier before losses and cap. */
  function Unscaled(cfg: Config, regime: int, volatility: real): real {
    if DUST < volatility then Regime(cfg, regime) * Clip(cfg, TargetBps(cfg) / volatility) else Regime(cfg, regime)
  }

  function Clip(cfg: Config, x: real): real { Max(cfg.sizeFloor, Min(cfg.sizeCap, x)) }

  /** The share of the multiplier that a drawdown leaves. */
  function Kept(cfg: Config, loss: real): real {
    if cfg.hardLoss <= loss then 0.25 else if cfg.softLoss <= loss then 0.5 else 1.0
  }

  function Capped(cfg: Config, x: real): real { Max(0.0, Min(cfg.sizeCap, x)) }

  lemma MultiplierIs(cfg: Config, regime: int, volatility: real, loss: real)
    ensures Multiplier(cfg, regime, volatility, loss)
            == Capped(cfg, Unscaled(cfg, regime, volatility) * Kept(cfg, loss))
  {
    hide Regime;
    var reference := cfg.targetVolatility / Max(cfg.maxGross, DUST) * 10000.0;
    assert reference == TargetBps(cfg);
    hide TargetBps;
    var weight := Regime(cfg, regime);
    var m' := if volatility > DUST then weight * Max(cfg.sizeFloor, Min(cfg.sizeCap, reference / volatility))
              else weight;
    assert m' == Unscaled(cfg, regime, volatility);
    hide Unscaled;
    assert m' * 1.0 == m';
  }

  lemma MultiplierCapped(cfg: Config, regime: int, volatility: real, loss: real, left: real)
    requires left == Unscaled(cfg, regime, volatility) * Kept(cfg, loss)
    ensures Multiplier(cfg, regime, volatility, loss) == Capped(cfg, left)
  {
    hide Multiplier, Unscaled, Capped, Kept;
    MultiplierIs(cfg, regime, volatility, loss);
  }

  lemma CappedOrder(cfg: Config, x: real, y: real)
    requires x <= y
    ensures Capped(cfg, x) <= Capped(cfg, y)
  {
  }

  lemma UnscaledNonnegative(cfg: Config, regime: int, volatility: real)
    requires Regular(cfg)
    ensures 0.0 <= Unscaled(cfg, regime, volatility)
  {
    if DUST < volatility {
      var weight, clip := Regime(cfg, regime), Clip(cfg, TargetBps(cfg) / volatility);
      hide Regime, TargetBps;
      ProductOrder(0.0, clip, weight);
    }
  }

  /** A larger loss never raises the multiplier. */
  lemma LossNeverRaises(cfg: Config, regime: int, volatility: real, less: real, more: real)
    requires Regular(cfg) && less <= more
    ensures Multiplier(cfg, regime, volatility, more) <= Multiplier(cfg, regime, volatility, less)
  {
    hide Multiplier, Unscaled, Capped;
    var m := Unscaled(cfg, regime, volatility);
    UnscaledNonnegative(cfg, regime, volatility);
    MultiplierIs(cfg, regime, volatility, less);
    MultiplierIs(cfg, regime, volatility, more);
    ProductOrder(Kept(cfg, more), Kept(cfg, less), m);
    CappedOrder(cfg, m * Kept(cfg, more), m * Kept(cfg, less));
  }

  /**
    Where the multiplier without a loss is below the cap, a loss from the hard limit on leaves exactly a quarter
    of it, one from the soft limit on exactly half, and a smaller one all of it.
   */
  lemma LossSteps(cfg: Config, regime: int, volatility: real, calm: real, loss: real)
    requires Regular(cfg) && calm < Min(cfg.softLoss, cfg.hardLoss)
    requires Multiplier(cfg, regime, volatility, calm) < cfg.sizeCap
    ensures var full, left := Multiplier(cfg, regime, volatility, calm), Multiplier(cfg, regime, volatility, loss);
            && (cfg.hardLoss <= loss ==> left == 0.25 * full)
            && (cfg.softLoss <= loss < cfg.hardLoss ==> left == 0.5 * full)
            && (loss < Min(cfg.softLoss, cfg.hardLoss) ==> left == full)
  {
    hide Multiplier, Unscaled;
    UnscaledNonnegative(cfg, regime, volatility);
    MultiplierIs(cfg, regime, volatility, calm);
    MultiplierIs(cfg, regime, volatility, loss);
  }

  /** At the cap a loss leaves at least that share of it. */
  lemma LossStepsAtCap(cfg: Config, regime: int, volatility: real, calm: real, loss: real)
    requires Regular(cfg) && calm < Min(cfg.softLoss, cfg.hardLoss)
    requires Multiplier(cfg, regime, volatility, calm) == cfg.sizeCap
    ensures Multiplier(cfg, regime, volatility, loss)
            >= cfg.sizeCap * (if cfg.hardLoss <= loss then 0.25 else if cfg.softLoss <= loss then 0.5 else 1.0)
  {
    hide Multiplier, Unscaled;
    UnscaledNonnegative(cfg, regime, volatility);
    MultiplierIs(cfg, regime, volatility, calm);
    MultiplierIs(cfg, regime, volatility, loss);
  }

  lemma QuotientOrder(n: real, d: real, e: real)
    requires 0.0 <= n && 0.0 < d <= e
    ensures n / e <= n / d
  {
    var q := n / e;
    assert q * e == n;
    NonnegativeQuotient(n, e, q);
    ProductOrder(d, e, q);
    DividedBy(n, d, q);
  }

  lemma TargetNonnegative(cfg: Config)
    requires Regular(cfg)
    ensures 0.0 <= TargetBps(cfg)
  {
    var gross := Max(cfg.maxGross, DUST);
    NonnegativeQuotient(cfg.targetVolatility, gross, cfg.targetVolatility / gross);
  }

  lemma UnscaledOrder(cfg: Config, regime: int, calmer: real, wilder: real)
    requires Regular(cfg) && DUST < calmer <= wilder
    ensures Unscaled(cfg, regime, wilder) <= Unscaled(cfg, regime, calmer)
  {
    hide Regime, TargetBps;
    TargetNonnegative(cfg);
    RegimeNonnegative(cfg, regime);
    QuotientOrder(TargetBps(cfg), calmer, wilder);
    ProductOrder(Clip(cfg, TargetBps(cfg) / wilder), Clip(cfg, TargetBps(cfg) / calmer), Regime(cfg, regime));
  }

  /** Above dust, a higher volatility never raises the multiplier. */
  lemma VolatilityNeverRaises(cfg: Config, regime: int, calmer: real, wilder: real, loss: real)
    requires Regular(cfg) && DUST < calmer <= wilder
    ensures Multiplier(cfg, regime, wilder, loss) <= Multiplier(cfg, regime, calmer, loss)
  {
    hide Multiplier, Unscaled, Capped;
    UnscaledOrder(cfg, regime, calmer, wilder);
    var kept, less, more := Kept(cfg, loss), Unscaled(cfg, regime, wilder), Unscaled(cfg, regime, calmer);
    var low, high := less * kept, more * kept;
    assert low <= high by { ProductOrder(less, more, kept); }
    CappedOrder(cfg, low, high);
    MultiplierCapped(cfg, regime, wilder, loss, low);
    MultiplierCapped(cfg, regime, calmer, loss, high);
  }

  lemma RegimeNonnegative(cfg: Config, regime: int)
    requires Regular(cfg)
    ensures 0.0 <= Regime(cfg, regime)
  {
  }

  lemma Part(weight: real, q: real, product: real)
    requires 0.0 <= weight <= 1.0 && 0.0 <= q && product == weight * q
    ensures 0.0 <= product <= q
  {
    ProductOrder(0.0, weight, q);
    ProductOrder(weight, 1.0, q);
  }

  lemma UnclippedWeight(cfg: Config, regime: int, volatility: real, loss: real, q: real)
    requires Regular(cfg) && DUST < volatility && loss < Min(cfg.softLoss, cfg.hardLoss) && Regime(cfg, regime) <= 1.0
    requires q * volatility == TargetBps(cfg) && cfg.sizeFloor <= q <= cfg.sizeCap
    ensures Multiplier(cfg, regime, volatility, loss) == Regime(cfg, regime) * q
  {
    hide Multiplier, TargetBps, Regime;
    RegimeNonnegative(cfg, regime);
    var weight := Regime(cfg, regime);
    assert TargetBps(cfg) / volatility == q by {
      AtMost(TargetBps(cfg), volatility, q);
      DividedBy(TargetBps(cfg), volatility, q);
    }
    assert Unscaled(cfg, regime, volatility) == weight * q;
    var product := weight * q;
    Part(weight, q, product);
    MultiplierCapped(cfg, regime, volatility, loss, product);
  }

  /**
    Between floor and cap, the sized position moves by the target: below the soft loss, multiplier times
    volatility is the regime's weight times the target over the maximal gross exposure, in basis points.
   */
  lemma VolatilityTargeted(cfg: Config, regime: int, volatility: real, loss: real, target: real)
    requires Regular(cfg) && DUST < volatility && loss < Min(cfg.softLoss, cfg.hardLoss) && Regime(cfg, regime) <= 1.0
    requires target == cfg.targetVolatility / Max(cfg.maxGross, DUST) * 10000.0
    requires cfg.sizeFloor * volatility <= target <= cfg.sizeCap * volatility
    ensures Multiplier(cfg, regime, volatility, loss) * volatility == Regime(cfg, regime) * target
  {
    hide Multiplier, Regime, Regular;
    Targeted(cfg, regime, volatility, loss, target);
  }

  lemma Targeted(cfg: Config, regime: int, volatility: real, loss: real, target: real)
    requires Regular(cfg) && DUST < volatility && loss < Min(cfg.softLoss, cfg.hardLoss) && Regime(cfg, regime) <= 1.0
    requires target == TargetBps(cfg) && cfg.sizeFloor * volatility <= target <= cfg.sizeCap * volatility
    ensures Multiplier(cfg, regime, volatility, loss) * volatility == Regime(cfg, regime) * target
  {
    hide Multiplier, Regime, TargetBps;
    var q := target / volatility;
    assert q * volatility == target;
    DividedBy(target, volatility, cfg.sizeFloor);
    AtMost(target, volatility, cfg.sizeCap);
    UnclippedWeight(cfg, regime, volatility, loss, q);
    assert (Regime(cfg, regime) * q) * volatility == Regime(cfg, regime) * (q * volatility);
  }

  /**
   Outside, floor and cap take over: a volatility too high for the floor leaves the floor's share of the regime's
   weight, and one too low for the cap leaves the cap's share, in either case up to the cap.
   */
  lemma VolatilityClipped(cfg: Config, regime: int, volatility: real, loss: real, target: real)
    requires Regular(cfg) && cfg.sizeFloor <= cfg.sizeCap && DUST < volatility && loss < Min(cfg.softLoss, cfg.hardLoss)
    requires target == cfg.targetVolatility / Max(cfg.maxGross, DUST) * 10000.0
    ensures target <= cfg.sizeFloor * volatility ==>
              Multiplier(cfg, regime, volatility, loss) == Min(cfg.sizeCap, Regime(cfg, regime) * cfg.sizeFloor)
    ensures cfg.sizeCap * volatility <= target ==>
              Multiplier(cfg, regime, volatility, loss) == Min(cfg.sizeCap, Regime(cfg, regime) * cfg.sizeCap)
  {
    assert target == TargetBps(cfg);
    hide Multiplier, Regime, TargetBps;
    if target <= cfg.sizeFloor * volatility {
      AtMost(target, volatility, cfg.sizeFloor);
      ClippedWeight(cfg, regime, volatility, loss, cfg.sizeFloor, Regime(cfg, regime) * cfg.sizeFloor);
    }
    if cfg.sizeCap * volatility <= target {
      DividedBy(target, volatility, cfg.sizeCap);
      ClippedWeight(cfg, regime, volatility, loss, cfg.sizeCap, Regime(cfg, regime) * cfg.sizeCap);
    }
  }

  lemma ClippedWeight(cfg: Config, regime: int, volatility: real, loss: real, clip: real, product: real)
    requires Regular(cfg) && DUST < volatility && loss < Min(cfg.softLoss, cfg.hardLoss) && 0.0 <= clip
    requires clip == Clip(cfg, TargetBps(cfg) / volatility) && product == Regime(cfg, regime) * clip
    ensures Multiplier(cfg, regime, volatility, loss) == Min(cfg.sizeCap, product)
  {
    hide Multiplier, TargetBps, Regime, Clip;
    RegimeNonnegative(cfg, regime);
    ProductOrder(0.0, clip, Regime(cfg, regime));
    MultiplierCapped(cfg, regime, volatility, loss, product);
  }

  lemma AtMost(n: real, d: real, x: real)
    requires 0.0 < d && n <= x * d
    ensures n / d <= x
  {
    var q := n / d;
    assert q * d == n;
    if x < q { PositiveProduct(q - x, d, q * d - x * d); }
  }

  /** Without volatility and loss the multiplier is the regime's weight, up to the cap. */
  lemma RegimeWeight(cfg: Config, regime: int, volatility: real, loss: real)
    requires Regular(cfg) && volatility <= DUST && loss < Min(cfg.softLoss, cfg.hardLoss)
    ensures regime < 1 ==> Multiplier(cfg, regime, volatility, loss) == Min(cfg.sizeCap, cfg.regimes.0)
    ensures regime == 1 ==> Multiplier(cfg, regime, volatility, loss) == Min(cfg.sizeCap, cfg.regimes.1)
    ensures regime > 1 ==> Multiplier(cfg, regime, volatility, loss) == Min(cfg.sizeCap, cfg.regimes.2)
  {
    hide Multiplier;
    MultiplierIs(cfg, regime, volatility, loss);
  }

  // ----- what is submitted

  lemma SharesOrder(size: real, low: real, high: real)
    requires 0.0 <= size && 0.0 <= low <= high
    ensures Shares(size, low) <= Shares(size, high)
  {
    var less, more := size * low, size * high;
    assert 0.0 <= less <= more by { ProductOrder(low, high, size); ProductOrder(0.0, low, size); }
    TruncateOrder(less, more);
  }

  lemma TruncateOrder(a: real, b: real)
    requires a <= b
    ensures Truncate(a) <= Truncate(b)
  {
  }

  /** Neither a larger loss nor, above dust, a higher volatility ever raises the submitted quantity. */
  lemma QuantityNeverRaised(cfg: Config, sig: Signal, regime: int, calmer: real, wilder: real, less: real, more: real)
    requires 0.0 < sig.reference && 0.0 <= cfg.riskPerTrade && 0.0 <= cfg.maxNotional && 0.0 <= cfg.maxShares
    requires Regular(cfg) && less <= more && (calmer == wilder || DUST < calmer < wilder)
    ensures Quantity(cfg, sig, regime, wilder, more) <= Quantity(cfg, sig, regime, calmer, less)
  {
    hide Multiplier, Size, Shares;
    SizeBounds(cfg, sig);
    LossNeverRaises(cfg, regime, calmer, less, more);
    if calmer < wilder { VolatilityNeverRaises(cfg, regime, calmer, wilder, more); }
    MultiplierBounds(cfg, regime, wilder, more);
    SharesOrder(Size(cfg, sig), Multiplier(cfg, regime, wilder, more), Multiplier(cfg, regime, calmer, less));
  }

  lemma SharesLargest(size: real, m: real, product: real, n: int)
    requires 0.0 <= size && 0.0 <= m && product == size * m
    ensures n as real <= Shares(size, m) <==> n as real <= product
  {
    ProductOrder(0.0, m, size);
    Whole(product, n);
  }

  /** The submitted quantity is the largest whole number not above the multiplied size. */
  lemma QuantityLargest(cfg: Config, sig: Signal, regime: int, volatility: real, loss: real, n: int)
    requires 0.0 < sig.reference && 0.0 <= cfg.riskPerTrade && 0.0 <= cfg.maxNotional && 0.0 <= cfg.maxShares
    requires Regular(cfg)
    ensures n as real <= Quantity(cfg, sig, regime, volatility, loss)
            <==> n as real <= Size(cfg, sig) * Multiplier(cfg, regime, volatility, loss)
  {
    hide Multiplier, Size, Shares;
    SizeBounds(cfg, sig);
    MultiplierBounds(cfg, regime, volatility, loss);
    var size, m := Size(cfg, sig), Multiplier(cfg, regime, volatility, loss);
    SharesLargest(size, m, size * m, n);
  }

  lemma Quartered(size: real, full: real, left: real, n: int)
    requires 0.0 <= size && 0.0 <= full && left == 0.25 * full
    ensures n as real <= Shares(size, left) <==> 4.0 * n as real <= size * full
  {
    var product := size * full;
    assert size * left == 0.25 * product;
    ProductOrder(0.0, full, size);
    SharesLargest(size, left, 0.25 * product, n);
  }

  /**
    Where the multiplier without a loss is below the cap, the quantity submitted from the hard loss on is the
    largest whole number of which four fit into the size without a loss.
   */
  lemma QuantityQuartered(cfg: Config, sig: Signal, regime: int, volatility: real, calm: real, loss: real, n: int)
    requires 0.0 < sig.reference && 0.0 <= cfg.riskPerTrade && 0.0 <= cfg.maxNotional && 0.0 <= cfg.maxShares
    requires Regular(cfg) && calm < Min(cfg.softLoss, cfg.hardLoss) && cfg.hardLoss <= loss
    requires Multiplier(cfg, regime, volatility, calm) < cfg.sizeCap
    ensures n as real <= Quantity(cfg, sig, regime, volatility, loss)
            <==> 4.0 * n as real <= Size(cfg, sig) * Multiplier(cfg, regime, volatility, calm)
  {
    hide Multiplier, Size, Shares;
    LossSteps(cfg, regime, volatility, calm, loss);
    SizeBounds(cfg, sig);
    MultiplierBounds(cfg, regime, volatility, calm);
    Quartered(Size(cfg, sig), Multiplier(cfg, regime, volatility, calm), Multiplier(cfg, regime, volatility, loss), n);
  }
}
