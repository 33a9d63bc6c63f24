/** The backtest as it executes: one loop over the bars, updating position, ladder, trail and totals in place. */
module BacktestEngine {
  import opened Wrappers
  import opened Market
  import opened DcaPlanning
  import opened DcaLadder
  import opened Strategy
  import opened Backtest
  import opened TradeLog

  datatype Report = Report(
    trades: nat,
    wins: nat,
    totalPnlPct: real,
    maxDrawdownPct: real,
    candles: nat,
    tradeLog: seq<Trade>
  )

  function Wins(log: seq<Trade>): nat {
    if log == [] then 0 else Wins(log[..|log| - 1]) + if log[|log| - 1].outcome == Win then 1 else 0
  }

  class Evaluation {
    const env: Env
    const candles: seq<Candle>

    var tradeLog: seq<Trade>
    var inPosition: bool
    var positionSide: Side
    var effectiveEntry: real
    var entryTime: int
    var entryBarIndex: int
    var slPrice: real
    var tpPrice: real
    var trailingHigh: real
    var trailingLow: real
    var trailingStopPrice: real
    var trailingActivated: bool
    var dcaState: Option<DcaState>
    var dcaPendingSOs: seq<SafetyOrder>
    var dcaSlPctResolved: real
    var cumulativePnl: real
    var peakPnl: real
    var maxDrawdownPct: real

    /** The open position the variables describe. */
    function Current(): Position
      reads this
    {
      Position(positionSide, effectiveEntry, entryTime, entryBarIndex, slPrice, tpPrice,
               Trail(trailingHigh, trailingLow, trailingStopPrice, trailingActivated),
               if dcaState.Some? then Some(Ladder(dcaState.value, dcaPendingSOs, dcaSlPctResolved)) else None)
    }

    function State(): Run
      reads this
    {
      Run(if inPosition then Some(Current()) else None, tradeLog, cumulativePnl, peakPnl, maxDrawdownPct)
    }

    /** A ladder is tracked only when DCA is on. */
    ghost predicate Valid()
      reads this
    {
      dcaState.Some? ==> env.IsDca()
    }

    constructor (env: Env, candles: seq<Candle>)
      ensures State() == START && Valid()
      ensures this.env == env && this.candles == candles
    {
      this.env, this.candles := env, candles;
      tradeLog, inPosition, positionSide := [], false, Long;
      effectiveEntry, entryTime, entryBarIndex, slPrice, tpPrice := 0.0, 0, 0, 0.0, 0.0;
      trailingHigh, trailingLow, trailingStopPrice, trailingActivated := 0.0, 0.0, 0.0, false;
      dcaState, dcaPendingSOs, dcaSlPctResolved := None, [], 0.0;
      cumulativePnl, peakPnl, maxDrawdownPct := 0.0, 0.0, 0.0;
    }

    /** Appends the trade, updates the totals and leaves the position. */
    method RecordTrade(x: ExitFill, barsHeld: int)
      modifies this
      ensures State() == Record(old(State()), TradeOf(env, old(Current()), x, barsHeld)) && Valid()
    {
      var effectiveExit := x.price * env.ExitMult();
      var pnlPct := PnlPct(positionSide, effectiveExit, effectiveEntry);
      var dca :=
        if dcaState.Some? then Some((dcaState.value.safetyOrdersFilled, dcaState.value.avgEntryPrice)) else None;
      var trade := Trade(entryTime, x.time, positionSide, effectiveEntry, effectiveExit, slPrice, tpPrice,
                         x.outcome, pnlPct, x.reason, barsHeld, dca);
      assert trade == TradeOf(env, Current(), x, barsHeld);
      Append(trade);
    }

    method Append(trade: Trade)
      modifies this
      ensures State() == Record(old(State()), trade) && Valid()
    {
      tradeLog := tradeLog + [trade];
      cumulativePnl := cumulativePnl + trade.pnlPct;
      if cumulativePnl > peakPnl { peakPnl := cumulativePnl; }
      var dd := peakPnl - cumulativePnl;
      if dd > maxDrawdownPct { maxDrawdownPct := dd; }
      inPosition := false;
      dcaState, dcaPendingSOs := None, [];
    }

    /** Fills every pending safety order the bar reached, one after the other. */
    method FillSafetyOrders(c: Candle)
      requires Valid()
      modifies this`dcaState, this`dcaPendingSOs, this`effectiveEntry, this`tpPrice, this`slPrice
      ensures Current() == FillLadder(env, c, old(Current())) && Valid()
    {
      hide FirstProblem;
      hide FillMany;
      if dcaState.Some? && |dcaPendingSOs| > 0 && Reached(dcaPendingSOs[0], c, positionSide) {
        var state, pending :=
          FillReached(env.dsl.dca.value, dcaSlPctResolved, dcaState.value, dcaPendingSOs, c, positionSide);
        dcaState, dcaPendingSOs := Some(state), pending;
        effectiveEntry, tpPrice, slPrice := state.avgEntryPrice, state.tpPrice, state.slPrice;
      }
    }

    /** Moves the trailing stop for this bar; true if it was hit. */
    method TrackTrailingStop(c: Candle) returns (hit: bool)
      modifies this`trailingHigh, this`trailingLow, this`trailingStopPrice, this`trailingActivated
      ensures hit <==> TrailFires(env, old(Current()), c)
      ensures Current() == old(Current()).(trail := TrailNow(env, old(Current()), c))
    {
      hit := false;
      if env.dsl.exit.Some? && env.dsl.exit.value.trailingStop.Some? {
        var ts := env.dsl.exit.value.trailingStop.value;
        if ts.isPct && ts.activationPct.Some? && ts.callbackPct.Some? {
          if positionSide == Long {
            if c.high > trailingHigh { trailingHigh := c.high; }
            var activationPrice := InFavour(effectiveEntry, ts.activationPct.value, Long);
            if trailingHigh >= activationPrice {
              trailingActivated := true;
              trailingStopPrice := Against(trailingHigh, ts.callbackPct.value, Long);
            }
            hit := trailingActivated && c.low <= trailingStopPrice;
          } else {
            if c.low < trailingLow { trailingLow := c.low; }
            var activationPrice := InFavour(effectiveEntry, ts.activationPct.value, Short);
            if trailingLow <= activationPrice {
              trailingActivated := true;
              trailingStopPrice := Against(trailingLow, ts.callbackPct.value, Short);
            }
            hit := trailingActivated && c.high >= trailingStopPrice;
          }
        }
      }
    }

    /** The first exit that fires on bar `i`, in the source's priority; the trail moves on the way. */
    method FindExit(i: nat) returns (x: Option<ExitFill>)
      requires i < |candles|
      modifies this`trailingHigh, this`trailingLow, this`trailingStopPrice, this`trailingActivated
      ensures x == Decide(env, candles, i, old(Current()))
      ensures x == None ==> Current() == old(Current()).(trail := TrailNow(env, old(Current()), candles[i]))
      ensures exists t :: Current() == old(Current()).(trail := t)
    {
      hide IndicatorFires;
      hide SignalFill;
      hide StopHit;
      hide TargetHit;
      hide TrailNow;
      hide TrailFires;
      var c := candles[i];
      if StopHit(positionSide, slPrice, c) {
        assert Current() == old(Current()).(trail := Current().trail);
        return Some(ExitFill(c.openTime, slPrice, Loss, BySl));
      }
      var hit := TrackTrailingStop(c);
      if hit {
        return Some(ExitFill(c.openTime, trailingStopPrice,
                             TrailOutcome(positionSide, trailingStopPrice, effectiveEntry), ByTrailing));
      }
      if IndicatorFires(env, candles, i, positionSide) {
        var (exitTime, exitPrice) := SignalFill(env, candles, i);
        return Some(ExitFill(exitTime, exitPrice,
                             OutcomeOf(positionSide, exitPrice * env.ExitMult(), effectiveEntry), ByIndicator));
      }
      if TargetHit(positionSide, tpPrice, c) {
        return Some(ExitFill(c.openTime, tpPrice, Win, ByTp));
      }
      if TimeIsUp(env, Current(), i) {
        return Some(ExitFill(c.openTime, c.close,
                             OutcomeOf(positionSide, c.close * env.ExitMult(), effectiveEntry), ByTime));
      }
      return None;
    }

    /** The exit half of a bar: safety orders first, then at most one exit. */
    method CheckExits(i: nat)
      requires i < |candles| && inPosition && Valid()
      modifies this
      ensures State() == Step(env, candles, i, old(State())) && Valid()
    {
      hide Decide;
      hide FillLadder;
      var barsHeld := i - entryBarIndex;
      FillSafetyOrders(candles[i]);
      ghost var p := Current();
      var x := FindExit(i);
      if x.Some? {
        assert TradeOf(env, Current(), x.value, barsHeld) == TradeOf(env, p, x.value, barsHeld);
        RecordTrade(x.value, barsHeld);
      }
    }

    /** The entry half of a bar. */
    method CheckEntry(i: nat)
      requires i < |candles| && !inPosition && Valid()
      modifies this
      ensures State() == Step(env, candles, i, old(State())) && Valid()
    {
      var side := BacktestSide(env.lib, env.dsl.entry, i, candles);
      if side == None { return; }
      if !SignalFires(env.lib, env.dsl.entry, i, candles) { return; }
      if !ProximityPasses(env.lib, env.dsl.entry.proximityFilter, i, candles) { return; }
      var fill := EntryFill(env, candles, i);
      if fill == None { return; }
      OpenAt(i, side.value, fill.value);
    }

    /** Enters the position and lets a ladder, if any, override its levels. */
    method OpenAt(i: nat, side: Side, fill: (Price, int, nat))
      requires i < |candles|
      modifies this
      ensures State() == old(State()).(position := Some(Open(env, candles, i, side, fill))) && Valid()
    {
      hide Flat;
      hide WithLadder;
      var entry := Effective(fill.0, env.EntryMult());
      OpenFlat(i, side, fill, entry);
      if env.IsDca() {
        StartLadder(entry);
      }
    }

    /** Position variables, plain levels and trail. */
    method OpenFlat(i: nat, side: Side, fill: (Price, int, nat), entry: Price)
      requires i < |candles| && entry == Effective(fill.0, env.EntryMult())
      modifies this`inPosition, this`positionSide, this`effectiveEntry, this`entryTime, this`entryBarIndex
      modifies this`slPrice, this`tpPrice, this`dcaState, this`dcaPendingSOs
      modifies this`trailingHigh, this`trailingLow, this`trailingStopPrice, this`trailingActivated
      ensures inPosition && Current() == Flat(env, candles, i, side, fill)
      ensures effectiveEntry == entry && Valid()
    {
      hide StopPrice;
      hide TargetPrice;
      var c := candles[i];
      inPosition, positionSide := true, side;
      effectiveEntry, entryTime, entryBarIndex := entry, fill.1, fill.2;
      slPrice := StopPrice(env.lib, StopDef(env.dsl), entry, side, candles, i);
      tpPrice := TargetPrice(env.lib, TargetDef(env.dsl), entry, side, candles, i);
      trailingHigh, trailingLow, trailingStopPrice, trailingActivated := c.close, c.close, 0.0, false;
      dcaState, dcaPendingSOs := None, [];
    }

    /** Sets up the ladder and lets it override the levels. */
    method StartLadder(entry: Price)
      requires env.IsDca() && effectiveEntry == entry
      modifies this`dcaState, this`dcaPendingSOs, this`dcaSlPctResolved, this`tpPrice, this`slPrice
      ensures Current() == WithLadder(env, old(Current()), entry) && Valid()
    {
      var config := env.dsl.dca.value;
      ChecksDecideValidity(config);
      dcaSlPctResolved := LadderStopPct(env, entry, slPrice);
      var schedule := GenerateSafetyOrderSchedule(config, entry, positionSide);
      var state := OpenDcaPosition(entry, config.baseOrderSizeUsd / entry, config.baseOrderSizeUsd,
                                   config.takeProfitPct, dcaSlPctResolved, positionSide);
      dcaState, dcaPendingSOs := Some(state), schedule.value.safetyOrders;
      tpPrice, slPrice := state.tpPrice, state.slPrice;
    }

    /** Whatever is still open is closed at the last candle. */
    method CloseAtEnd()
      requires |candles| > 0
      modifies this
      ensures State() == CloseOut(env, candles, old(State()))
    {
      if inPosition {
        var last := candles[|candles| - 1];
        var outcome := OutcomeOf(positionSide, last.close * env.ExitMult(), effectiveEntry);
        RecordTrade(ExitFill(last.openTime, last.close, outcome, ByEndOfData), |candles| - 1 - entryBarIndex);
      }
    }

    /** The bar loop and the final close: the execution computes the fold. */
    method Evaluate()
      requires State() == START && Valid()
      modifies this
      ensures State() == Final(env, candles)
    {
      hide Step;
      hide CloseOut;
      if |candles| < 2 { return; }
      for i := 1 to |candles|
        invariant State() == RunTo(env, candles, i) && Valid()
      {
        if inPosition {
          CheckExits(i);
        } else {
          CheckEntry(i);
        }
      }
      CloseAtEnd();
    }
  }

  /** The report, before rounding: counts, and totals that agree with the log and its running drawdown. */
  method RunDslBacktest(env: Env, candles: seq<Candle>) returns (report: Report)
    ensures report.tradeLog == Final(env, candles).log
    ensures report.trades == |report.tradeLog| && report.candles == |candles|
    ensures report.wins == Wins(report.tradeLog)
    ensures report.totalPnlPct == PrefixSum(report.tradeLog, |report.tradeLog|)
    ensures IsMaxDrawdown(report.tradeLog, report.maxDrawdownPct)
  {
    hide Final;
    ReportIsAccounted(env, candles);
    var evaluation := new Evaluation(env, candles);
    evaluation.Evaluate();
    var log := evaluation.tradeLog;
    var wins, total := 0, 0.0;
    for k := 0 to |log|
      invariant wins == Wins(log[..k]) && total == PrefixSum(log, k)
    {
      assert log[..k + 1][..k] == log[..k];
      if log[k].outcome == Win { wins := wins + 1; }
      total := total + log[k].pnlPct;
    }
    assert log[..|log|] == log;
    return Report(|log|, wins, total, evaluation.maxDrawdownPct, |candles|, log);
  }
}
