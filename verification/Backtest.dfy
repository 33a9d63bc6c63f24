/** The bar-by-bar meaning of a backtest (`runDslBacktest`), as a fold over the candles. */
module Backtest {
  import opened Wrappers
  import opened Market
  import opened Reals
  import opened Indicators
  import opened DcaPlanning
  import opened DcaLadder
  import opened Strategy

  datatype FillAt = AtOpen | AtClose | AtNextOpen

  type Bps = x: real | x >= 0.0

  datatype ExecOpts = ExecOpts(
    takerFeeBps: Option<Bps>,
    feeBps: Option<Bps>,
    slippageBps: Option<Bps>,
    fillAt: Option<FillAt>
  )

  /** Everything a run depends on besides the candles. */
  datatype Env = Env(lib: Library, dsl: Dsl, opts: ExecOpts) {
    /** The taker fee wins over its legacy alias. */
    function FeeBps(): Bps {
      if opts.takerFeeBps.Some? then opts.takerFeeBps.value else if opts.feeBps.Some? then opts.feeBps.value else 0.0
    }

    function SlippageBps(): Bps {
      if opts.slippageBps.Some? then opts.slippageBps.value else 0.0
    }

    function FillMode(): FillAt {
      opts.fillAt.Else(AtClose)
    }

    function EntryMult(): Price {
      1.0 + (FeeBps() + SlippageBps()) / 10000.0
    }

    function ExitMult(): real {
      1.0 - (FeeBps() + SlippageBps()) / 10000.0
    }

    /** A raw exit price after costs. */
    function Net(price: real): real {
      price * ExitMult()
    }

    /** DCA is on when configured and valid; an invalid configuration falls back to plain exits. */
    predicate IsDca() {
      dsl.dca.Some? && FirstProblem(dsl.dca.value) == None
    }
  }

  datatype Outcome = Win | Loss | Neutral

  datatype ExitReason = BySl | ByTp | ByIndicator | ByTime | ByTrailing | ByEndOfData

  datatype Trail = Trail(high: real, low: real, stop: real, active: bool)

  datatype Ladder = Ladder(state: DcaState, pending: seq<SafetyOrder>, slPct: real)

  datatype Position = Position(
    side: Side,
    entry: real,
    entryTime: int,
    entryBar: int,
    sl: real,
    tp: real,
    trail: Trail,
    ladder: Option<Ladder>
  )

  datatype Trade = Trade(
    entryTime: int,
    exitTime: int,
    side: Side,
    entryPrice: real,
    exitPrice: real,
    slPrice: real,
    tpPrice: real,
    outcome: Outcome,
    pnlPct: real,
    reason: ExitReason,
    barsHeld: int,
    dca: Option<(nat, real)>
  )

  datatype Run = Run(position: Option<Position>, log: seq<Trade>, cumulative: real, peak: real, maxDrawdown: real)

  const START := Run(None, [], 0.0, 0.0, 0.0)

  /** A position to close: when, at which raw price, and why. */
  datatype ExitFill = ExitFill(time: int, price: real, outcome: Outcome, reason: ExitReason)

  // ----- exits -----

  /** The bar's fills of pending safety orders, and the levels they move. */
  function FillLadder(env: Env, c: Candle, p: Position): Position {
    if env.dsl.dca.Some? && p.ladder.Some? && ReachedCount(p.ladder.value.pending, c, p.side) > 0 then
      var l := p.ladder.value;
      var n := ReachedCount(l.pending, c, p.side);
      var state := FillMany(env.dsl.dca.value, l.slPct, l.state, l.pending[..n]);
      p.(entry := state.avgEntryPrice, tp := state.tpPrice, sl := state.slPrice,
         ladder := Some(Ladder(state, l.pending[n..], l.slPct)))
    else
      p
  }

  predicate StopHit(side: Side, sl: real, c: Candle) {
    match side
    case Long => c.low <= sl
    case Short => c.high >= sl
  }

  predicate TargetHit(side: Side, tp: real, c: Candle) {
    match side
    case Long => c.high >= tp
    case Short => c.low <= tp
  }

  /** A trailing stop that is configured completely. */
  predicate Trails(ts: TrailingStop) {
    ts.isPct && ts.activationPct.Some? && ts.callbackPct.Some?
  }

  /** The water marks, the activation and the stop price after this bar. */
  function MoveTrail(ts: TrailingStop, side: Side, entry: real, t: Trail, c: Candle): Trail
    requires Trails(ts)
  {
    match side
    case Long =>
      var high := Max(c.high, t.high);
      if high >= InFavour(entry, ts.activationPct.value, Long)
      then t.(high := high, active := true, stop := Against(high, ts.callbackPct.value, Long))
      else t.(high := high)
    case Short =>
      var low := Min(c.low, t.low);
      if low <= InFavour(entry, ts.activationPct.value, Short)
      then t.(low := low, active := true, stop := Against(low, ts.callbackPct.value, Short))
      else t.(low := low)
  }

  predicate TrailHit(side: Side, t: Trail, c: Candle) {
    t.active && StopHit(side, t.stop, c)
  }

  /** The stop lies on the profitable side of the entry. */
  function TrailOutcome(side: Side, stop: real, entry: real): Outcome {
    if (side == Long && stop >= entry) || (side == Short && stop <= entry) then Win else Loss
  }

  function OutcomeOf(side: Side, effectiveExit: real, entry: real): Outcome {
    var direction := if side == Long then effectiveExit - entry else entry - effectiveExit;
    if direction > 0.0 then Win else if direction < 0.0 then Loss else Neutral
  }

  /** The outcome of leaving the position at a raw price. */
  function OutcomeAt(env: Env, p: Position, price: real): Outcome {
    OutcomeOf(p.side, env.Net(price), p.entry)
  }

  /** The price and time of an indicator exit under the fill mode; the last bar has no next open. */
  function SignalFill(env: Env, candles: seq<Candle>, i: nat): (int, real)
    requires i < |candles|
  {
    match env.FillMode()
    case AtOpen => (candles[i].openTime, candles[i].open)
    case AtNextOpen =>
      if i + 1 < |candles| then (candles[i + 1].openTime, candles[i + 1].open)
      else (candles[i].openTime, candles[i].close)
    case AtClose => (candles[i].openTime, candles[i].close)
  }

  /** The trail after bar `c`, if the strategy trails. */
  function TrailNow(env: Env, p: Position, c: Candle): Trail {
    if env.dsl.exit.Some? && env.dsl.exit.value.trailingStop.Some? && Trails(env.dsl.exit.value.trailingStop.value)
    then MoveTrail(env.dsl.exit.value.trailingStop.value, p.side, p.entry, p.trail, c)
    else p.trail
  }

  predicate TrailFires(env: Env, p: Position, c: Candle) {
    && env.dsl.exit.Some? && env.dsl.exit.value.trailingStop.Some? && Trails(env.dsl.exit.value.trailingStop.value)
    && TrailHit(p.side, TrailNow(env, p, c), c)
  }

  predicate IndicatorFires(env: Env, candles: seq<Candle>, i: nat, side: Side) {
    && env.dsl.exit.Some? && env.dsl.exit.value.indicatorExit.Some?
    && var ie := env.dsl.exit.value.indicatorExit.value;
       ExitSignal(ie, side, BacktestValue(env.lib, ie.indicator, candles, i))
  }

  predicate TimeIsUp(env: Env, p: Position, i: int) {
    && env.dsl.exit.Some? && env.dsl.exit.value.maxBarsInPosition.Some?
    && i - p.entryBar >= env.dsl.exit.value.maxBarsInPosition.value
  }

  /** Exit checks in the source's priority: stop, trailing stop, indicator, target, time. */
  function Decide(env: Env, candles: seq<Candle>, i: nat, p: Position): Option<ExitFill>
    requires i < |candles|
  {
    var c := candles[i];
    if StopHit(p.side, p.sl, c) then
      Some(ExitFill(c.openTime, p.sl, Loss, BySl))
    else if TrailFires(env, p, c) then
      var stop := TrailNow(env, p, c).stop;
      Some(ExitFill(c.openTime, stop, TrailOutcome(p.side, stop, p.entry), ByTrailing))
    else if IndicatorFires(env, candles, i, p.side) then
      var (time, price) := SignalFill(env, candles, i);
      Some(ExitFill(time, price, OutcomeAt(env, p, price), ByIndicator))
    else if TargetHit(p.side, p.tp, c) then
      Some(ExitFill(c.openTime, p.tp, Win, ByTp))
    else if TimeIsUp(env, p, i) then
      Some(ExitFill(c.openTime, c.close, OutcomeAt(env, p, c.close), ByTime))
    else
      None
  }

  /** Profit in percent of the entry. No reachable entry is zero (`RunInvariant` of `BacktestInvariants`). */
  function PnlPct(side: Side, effectiveExit: real, entry: real): real {
    if entry == 0.0 then 0.0
    else match side
      case Long => (effectiveExit - entry) / entry * 100.0
      case Short => (entry - effectiveExit) / entry * 100.0
  }

  function TradeOf(env: Env, p: Position, x: ExitFill, barsHeld: int): Trade {
    var effectiveExit := env.Net(x.price);
    Trade(p.entryTime, x.time, p.side, p.entry, effectiveExit, p.sl, p.tp, x.outcome,
          PnlPct(p.side, effectiveExit, p.entry), x.reason, barsHeld,
          if p.ladder.Some? then Some((p.ladder.value.state.safetyOrdersFilled, p.ladder.value.state.avgEntryPrice))
          else None)
  }

  /** Log the trade, update cumulative PnL, peak and drawdown, and go flat. */
  function Record(st: Run, trade: Trade): Run {
    var cumulative := st.cumulative + trade.pnlPct;
    var peak := Max(st.peak, cumulative);
    Run(None, st.log + [trade], cumulative, peak, Max(st.maxDrawdown, peak - cumulative))
  }

  // ----- entries -----

  /** Fill price, time and bar of an entry signalled at bar `i`; `NEXT_OPEN` needs a next bar. */
  function EntryFill(env: Env, candles: seq<Candle>, i: nat): Option<(Price, int, nat)>
    requires i < |candles|
  {
    match env.FillMode()
    case AtOpen => Some((candles[i].open, candles[i].openTime, i))
    case AtNextOpen =>
      if i + 1 >= |candles| then None else Some((candles[i + 1].open, candles[i + 1].openTime, i + 1))
    case AtClose => Some((candles[i].close, candles[i].openTime, i))
  }

  /** Stop distance the ladder keeps, in percent of the average entry. */
  function LadderStopPct(env: Env, entry: Price, sl: real): real {
    if StopDef(env.dsl).kind == FixedPct then StopDef(env.dsl).value
    else Abs(entry - sl) / entry * 100.0
  }

  function OpenLadder(env: Env, entry: Price, side: Side, sl: real): Ladder
    requires env.IsDca()
  {
    var config := env.dsl.dca.value;
    var slPct := LadderStopPct(env, entry, sl);
    ChecksDecideValidity(config);
    TriggersPositive(config, entry, side);
    Ladder(OpenDcaPosition(entry, config.baseOrderSizeUsd / entry, config.baseOrderSizeUsd,
                           config.takeProfitPct, slPct, side),
           Levels(config, entry, side, config.maxSafetyOrders), slPct)
  }

  function Effective(price: Price, mult: Price): Price {
    MulPos(price, mult);
    price * mult
  }

  /** The position with its plain levels, its trail reset to the signal bar's close. */
  function Flat(env: Env, candles: seq<Candle>, i: nat, side: Side, fill: (Price, int, nat)): Position
    requires i < |candles|
  {
    var entry := Effective(fill.0, env.EntryMult());
    var c := candles[i];
    Position(side, entry, fill.1, fill.2,
             StopPrice(env.lib, StopDef(env.dsl), entry, side, candles, i),
             TargetPrice(env.lib, TargetDef(env.dsl), entry, side, candles, i),
             Trail(c.close, c.close, 0.0, false), None)
  }

  /** The ladder overrides both levels. */
  function WithLadder(env: Env, p: Position, entry: Price): Position
    requires env.IsDca()
  {
    var ladder := OpenLadder(env, entry, p.side, p.sl);
    p.(sl := ladder.state.slPrice, tp := ladder.state.tpPrice, ladder := Some(ladder))
  }

  function Open(env: Env, candles: seq<Candle>, i: nat, side: Side, fill: (Price, int, nat)): Position
    requires i < |candles|
  {
    var flat := Flat(env, candles, i, side, fill);
    if env.IsDca() then WithLadder(env, flat, Effective(fill.0, env.EntryMult())) else flat
  }

  /** The position opened at bar `i`, if every gate lets the signal through. */
  function Enter(env: Env, candles: seq<Candle>, i: nat): Option<Position>
    requires i < |candles|
  {
    var side := BacktestSide(env.lib, env.dsl.entry, i, candles);
    if side == None || !SignalFires(env.lib, env.dsl.entry, i, candles)
       || !ProximityPasses(env.lib, env.dsl.entry.proximityFilter, i, candles)
    then None
    else
      var fill := EntryFill(env, candles, i);
      if fill == None then None else Some(Open(env, candles, i, side.value, fill.value))
  }

  // ----- what the run reads -----

  /** What the strategy reads of its indicator library is causal. */
  ghost predicate CausalRun(env: Env) {
    CausalOn(env.lib, BacktestReads(env.dsl))
  }

  /** What the strategy reads at the bars of the first `m` candles does not depend on the rest. */
  ghost predicate Settled(env: Env, candles: seq<Candle>, m: nat)
    requires m <= |candles|
  {
    AgreesOn(env.lib, BacktestReads(env.dsl), candles, m)
  }

  lemma CausalIsSettled(env: Env, candles: seq<Candle>, m: nat)
    requires CausalRun(env) && m <= |candles|
    ensures Settled(env, candles, m)
  {
    CausalAgrees(env.lib, BacktestReads(env.dsl), candles, m);
  }

  // ----- the run -----

  function Step(env: Env, candles: seq<Candle>, i: nat, st: Run): Run
    requires i < |candles|
  {
    if st.position.Some? then
      var p := FillLadder(env, candles[i], st.position.value);
      var x := Decide(env, candles, i, p);
      if x.Some? then Record(st, TradeOf(env, p, x.value, i - p.entryBar))
      else st.(position := Some(p.(trail := TrailNow(env, p, candles[i]))))
    else
      st.(position := Enter(env, candles, i))
  }

  /** State after bars 1 to `n - 1`. */
  function RunTo(env: Env, candles: seq<Candle>, n: nat): Run
    requires n <= |candles|
  {
    if n <= 1 then START else Step(env, candles, n - 1, RunTo(env, candles, n - 1))
  }

  /** The exit at the close of the last candle `c`. */
  function EndFill(env: Env, c: Candle, p: Position): ExitFill {
    ExitFill(c.openTime, c.close, OutcomeAt(env, p, c.close), ByEndOfData)
  }

  /** Close what is still open at the last candle's close. */
  function CloseOut(env: Env, candles: seq<Candle>, st: Run): Run
    requires |candles| > 0
  {
    if st.position.Some? then
      var p := st.position.value;
      Record(st, TradeOf(env, p, EndFill(env, candles[|candles| - 1], p), |candles| - 1 - p.entryBar))
    else st
  }

  function Final(env: Env, candles: seq<Candle>): Run {
    if |candles| < 2 then START else CloseOut(env, candles, RunTo(env, candles, |candles|))
  }
}
