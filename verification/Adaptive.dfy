/** The regime-switching backtest (`adaptiveStrategy.ts`) and when it collapses to the plain one. */
module Adaptive {
  import opened Wrappers
  import opened Market
  import opened Reals
  import opened Indicators
  import opened Strategy
  import opened Backtest

  datatype Regime = Trending | Ranging | NeutralRegime

  datatype AdaptiveConfig = AdaptiveConfig(
    adxPeriod: real,
    trendThreshold: real,
    rangeThreshold: real,
    trendEntry: Entry,
    rangeEntry: Entry,
    exit: Exit,
    riskPerTradePct: real
  )

  /** ADX above the trend threshold, below the range threshold, or neither (or not available). */
  function DetermineRegime(lib: Library, config: AdaptiveConfig, i: nat, candles: seq<Candle>): Regime {
    var adx := ValueAt(lib, QueryOf(AdxBlock, NO_PARAMS.(period := Some(config.adxPeriod))), candles, i);
    if adx == None then NeutralRegime
    else if adx.value > config.trendThreshold then Trending
    else if adx.value < config.rangeThreshold then Ranging
    else NeutralRegime
  }

  /** The costs this backtest reads: the legacy fee alias only. */
  function AdaptiveFee(opts: ExecOpts): Bps {
    if opts.feeBps.Some? then opts.feeBps.value else 0.0
  }

  function AdaptiveSlippage(opts: ExecOpts): Bps {
    if opts.slippageBps.Some? then opts.slippageBps.value else 0.0
  }

  function AdaptiveEntryMult(opts: ExecOpts): Price {
    1.0 + (AdaptiveFee(opts) + AdaptiveSlippage(opts)) / 10000.0
  }

  /** Slippage is left out of the exit multiplier. */
  function AdaptiveExitMult(opts: ExecOpts): real {
    1.0 - AdaptiveFee(opts) / 10000.0
  }

  /** A raw exit price after costs. */
  function AdaptiveNet(opts: ExecOpts, price: real): real {
    price * AdaptiveExitMult(opts)
  }

  datatype Env = Env(lib: Library, config: AdaptiveConfig, opts: ExecOpts)

  datatype AdaptiveTrade = AdaptiveTrade(trade: Trade, entryRegime: Regime)

  datatype AdaptivePosition = AdaptivePosition(p: Position, entryRegime: Regime)

  datatype AdaptiveRun = AdaptiveRun(
    position: Option<AdaptivePosition>,
    log: seq<AdaptiveTrade>,
    cumulative: real,
    peak: real,
    maxDrawdown: real
  )

  function MoveAdaptiveTrail(env: Env, p: Position, c: Candle): Trail {
    if env.config.exit.trailingStop.Some? && Trails(env.config.exit.trailingStop.value)
    then MoveTrail(env.config.exit.trailingStop.value, p.side, p.entry, p.trail, c) else p.trail
  }

  predicate AdaptiveTrailFires(env: Env, p: Position, c: Candle) {
    && env.config.exit.trailingStop.Some? && Trails(env.config.exit.trailingStop.value)
    && TrailHit(p.side, MoveAdaptiveTrail(env, p, c), c)
  }

  predicate AdaptiveIndicatorFires(env: Env, candles: seq<Candle>, i: nat, side: Side) {
    && env.config.exit.indicatorExit.Some?
    && var ie := env.config.exit.indicatorExit.value;
       ExitSignal(ie, side, BacktestValue(env.lib, ie.indicator, candles, i))
  }

  function AdaptiveOutcome(env: Env, side: Side, entry: real, price: real): Outcome {
    OutcomeOf(side, AdaptiveNet(env.opts, price), entry)
  }

  /** Exit checks with the shared exit configuration; fills are always at the close. */
  function AdaptiveDecide(env: Env, candles: seq<Candle>, i: nat, p: Position): Option<ExitFill>
    requires i < |candles|
  {
    var c := candles[i];
    if StopHit(p.side, p.sl, c) then Some(ExitFill(c.openTime, p.sl, Loss, BySl))
    else if AdaptiveTrailFires(env, p, c) then
      var stop := MoveAdaptiveTrail(env, p, c).stop;
      Some(ExitFill(c.openTime, stop, TrailOutcome(p.side, stop, p.entry), ByTrailing))
    else if AdaptiveIndicatorFires(env, candles, i, p.side) then
      Some(ExitFill(c.openTime, c.close, AdaptiveOutcome(env, p.side, p.entry, c.close), ByIndicator))
    else if TargetHit(p.side, p.tp, c) then Some(ExitFill(c.openTime, p.tp, Win, ByTp))
    else if env.config.exit.maxBarsInPosition.Some? && i - p.entryBar >= env.config.exit.maxBarsInPosition.value then
      Some(ExitFill(c.openTime, c.close, AdaptiveOutcome(env, p.side, p.entry, c.close), ByTime))
    else None
  }

  function AdaptiveTradeOf(env: Env, a: AdaptivePosition, x: ExitFill, barsHeld: int): AdaptiveTrade {
    var effectiveExit := AdaptiveNet(env.opts, x.price);
    AdaptiveTrade(
      Trade(a.p.entryTime, x.time, a.p.side, a.p.entry, effectiveExit, a.p.sl, a.p.tp, x.outcome,
            PnlPct(a.p.side, effectiveExit, a.p.entry), x.reason, barsHeld, None),
      a.entryRegime)
  }

  function AdaptiveRecord(st: AdaptiveRun, t: AdaptiveTrade): AdaptiveRun {
    var cumulative := st.cumulative + t.trade.pnlPct;
    var peak := Max(st.peak, cumulative);
    AdaptiveRun(None, st.log + [t], cumulative, peak, Max(st.maxDrawdown, peak - cumulative))
  }

  function ActiveEntry(config: AdaptiveConfig, regime: Regime): Entry {
    if regime == Trending then config.trendEntry else config.rangeEntry
  }

  /** The position opened at the close of bar `i`. */
  function AdaptiveOpen(env: Env, candles: seq<Candle>, i: nat, side: Side): Position
    requires i < |candles|
  {
    var c := candles[i];
    var entry := Effective(c.close, AdaptiveEntryMult(env.opts));
    Position(side, entry, c.openTime, i,
             StopPrice(env.lib, env.config.exit.stopLoss, entry, side, candles, i),
             TargetPrice(env.lib, env.config.exit.takeProfit, entry, side, candles, i),
             Trail(c.close, c.close, 0.0, false), None)
  }

  /** The regime gates the entry and selects which strategy is asked; there is no proximity gate. */
  function AdaptiveEnter(env: Env, candles: seq<Candle>, i: nat): Option<AdaptivePosition>
    requires i < |candles|
  {
    var regime := DetermineRegime(env.lib, env.config, i, candles);
    var active := ActiveEntry(env.config, regime);
    if regime == NeutralRegime then None
    else
      var side := DetermineSide(env.lib, active, i, candles);
      if side == None || !SignalFires(env.lib, active, i, candles) then None
      else Some(AdaptivePosition(AdaptiveOpen(env, candles, i, side.value), regime))
  }

  function AdaptiveStep(env: Env, candles: seq<Candle>, i: nat, st: AdaptiveRun): AdaptiveRun
    requires i < |candles|
  {
    if st.position.Some? then
      var a := st.position.value;
      var x := AdaptiveDecide(env, candles, i, a.p);
      if x.Some? then AdaptiveRecord(st, AdaptiveTradeOf(env, a, x.value, i - a.p.entryBar))
      else st.(position := Some(a.(p := a.p.(trail := MoveAdaptiveTrail(env, a.p, candles[i])))))
    else st.(position := AdaptiveEnter(env, candles, i))
  }

  const ADAPTIVE_START := AdaptiveRun(None, [], 0.0, 0.0, 0.0)

  function AdaptiveTo(env: Env, candles: seq<Candle>, n: nat): AdaptiveRun
    requires n <= |candles|
  {
    if n <= 1 then ADAPTIVE_START else AdaptiveStep(env, candles, n - 1, AdaptiveTo(env, candles, n - 1))
  }

  function AdaptiveEndFill(env: Env, c: Candle, p: Position): ExitFill {
    ExitFill(c.openTime, c.close, AdaptiveOutcome(env, p.side, p.entry, c.close), ByEndOfData)
  }

  function AdaptiveCloseOut(env: Env, candles: seq<Candle>, st: AdaptiveRun): AdaptiveRun
    requires |candles| > 0
  {
    if st.position.Some? then
      var a := st.position.value;
      var x := AdaptiveEndFill(env, candles[|candles| - 1], a.p);
      AdaptiveRecord(st, AdaptiveTradeOf(env, a, x, |candles| - 1 - a.p.entryBar))
    else st
  }

  function AdaptiveFinal(env: Env, candles: seq<Candle>): AdaptiveRun {
    if |candles| < 2 then ADAPTIVE_START else AdaptiveCloseOut(env, candles, AdaptiveTo(env, candles, |candles|))
  }

  /** Per-bar regimes, for diagnostics; bar 0 is never classified. */
  function RegimeLog(env: Env, candles: seq<Candle>): seq<Regime> {
    if |candles| < 2 then []
    else
      seq(|candles|, i requires 0 <= i < |candles| =>
        if i == 0 then NeutralRegime else DetermineRegime(env.lib, env.config, i, candles))
  }

  // ----- regimes of trades -----

  /**
   * The position was entered on a bar after the first, and every bar with that open time is logged with the
   * position's regime, which is not neutral. With ascending times that bar is the entry bar.
   */
  ghost predicate EnteredInRegime(env: Env, candles: seq<Candle>, entryTime: int, regime: Regime) {
    && regime != NeutralRegime
    && |RegimeLog(env, candles)| == |candles|
    && (exists b :: 0 < b < |candles| && candles[b].openTime == entryTime)
    && (forall b :: 0 <= b < |candles| && candles[b].openTime == entryTime ==> RegimeLog(env, candles)[b] == regime)
  }

  lemma EntryIsLogged(env: Env, candles: seq<Candle>, i: nat)
    requires Ascending(candles) && 1 <= i < |candles| && AdaptiveEnter(env, candles, i).Some?
    ensures
      var a := AdaptiveEnter(env, candles, i).value;
      a.p.entryBar == i && EnteredInRegime(env, candles, a.p.entryTime, a.entryRegime)
  {
    hide DetermineRegime;
    var a := AdaptiveEnter(env, candles, i).value;
    assert candles[i].openTime == a.p.entryTime;
    forall b | 0 <= b < |candles| && candles[b].openTime == a.p.entryTime
      ensures RegimeLog(env, candles)[b] == a.entryRegime
    {
      assert b == i;
    }
  }

  lemma {:induction false} TradesCarryEntryRegime(env: Env, candles: seq<Candle>, n: nat)
    requires Ascending(candles) && n <= |candles|
    ensures
      var st := AdaptiveTo(env, candles, n);
      && (st.position.Some? ==>
            EnteredInRegime(env, candles, st.position.value.p.entryTime, st.position.value.entryRegime))
      && forall k :: 0 <= k < |st.log| ==>
           EnteredInRegime(env, candles, st.log[k].trade.entryTime, st.log[k].entryRegime)
  {
    hide AdaptiveDecide;
    hide AdaptiveEnter;
    hide EnteredInRegime;
    hide Ascending;
    if n > 1 {
      TradesCarryEntryRegime(env, candles, n - 1);
      if AdaptiveEnter(env, candles, n - 1).Some? {
        EntryIsLogged(env, candles, n - 1);
      }
    }
  }

  /** Every trade of every run, the final one included, carries the logged, non-neutral regime of its entry bar. */
  lemma FinalTradesCarryEntryRegime(env: Env, candles: seq<Candle>, k: nat)
    requires Ascending(candles) && k < |AdaptiveFinal(env, candles).log|
    ensures var t := AdaptiveFinal(env, candles).log[k]; EnteredInRegime(env, candles, t.trade.entryTime, t.entryRegime)
  {
    hide EnteredInRegime;
    TradesCarryEntryRegime(env, candles, |candles|);
  }
}
