/** The imperative form of the regime-switching backtest (`adaptiveStrategy.ts`). */
module AdaptiveEngine {
  import opened Wrappers
  import opened Market
  import opened Signals
  import opened DcaPlanning
  import opened Strategy
  import opened Backtest
  import A = Adaptive

  class Evaluation {
    const env: A.Env
    const candles: seq<Candle>

    var tradeLog: seq<A.AdaptiveTrade>
    var inPosition: bool
    var positionSide: Side
    var effectiveEntry: real
    var entryTime: int
    var entryBarIndex: int
    var slPrice: real
    var tpPrice: real
    var entryRegime: A.Regime
    var trailingHigh: real
    var trailingLow: real
    var trailingStopPrice: real
    var trailingActivated: bool
    var cumulativePnl: real
    var peakPnl: real
    var maxDrawdownPct: real

    /** The open position the variables describe. */
    function Current(): Position
      reads this
    {
      Position(positionSide, effectiveEntry, entryTime, entryBarIndex, slPrice, tpPrice,
               Trail(trailingHigh, trailingLow, trailingStopPrice, trailingActivated), None)
    }

    function State(): A.AdaptiveRun
      reads this
    {
      A.AdaptiveRun(if inPosition then Some(A.AdaptivePosition(Current(), entryRegime)) else None,
                    tradeLog, cumulativePnl, peakPnl, maxDrawdownPct)
    }

    constructor (env: A.Env, candles: seq<Candle>)
      ensures State() == A.ADAPTIVE_START
      ensures this.env == env && this.candles == candles
    {
      this.env, this.candles := env, candles;
      tradeLog, inPosition, positionSide, entryRegime := [], false, Long, A.NeutralRegime;
      effectiveEntry, entryTime, entryBarIndex, slPrice, tpPrice := 0.0, 0, 0, 0.0, 0.0;
      trailingHigh, trailingLow, trailingStopPrice, trailingActivated := 0.0, 0.0, 0.0, false;
      cumulativePnl, peakPnl, maxDrawdownPct := 0.0, 0.0, 0.0;
    }

    /** Appends the trade with its regime, updates the totals and leaves the position. */
    method RecordTrade(x: ExitFill, barsHeld: int)
      modifies this
      ensures
        var a := A.AdaptivePosition(old(Current()), old(entryRegime));
        State() == A.AdaptiveRecord(old(State()), A.AdaptiveTradeOf(env, a, x, barsHeld))
    {
      var effectiveExit := x.price * A.AdaptiveExitMult(env.opts);
      var pnlPct := PnlPct(positionSide, effectiveExit, effectiveEntry);
      var trade := Trade(entryTime, x.time, positionSide, effectiveEntry, effectiveExit, slPrice, tpPrice,
                         x.outcome, pnlPct, x.reason, barsHeld, None);
      assert A.AdaptiveTrade(trade, entryRegime)
          == A.AdaptiveTradeOf(env, A.AdaptivePosition(Current(), entryRegime), x, barsHeld);
      Append(A.AdaptiveTrade(trade, entryRegime));
    }

    method Append(t: A.AdaptiveTrade)
      modifies this
      ensures State() == A.AdaptiveRecord(old(State()), t)
    {
      tradeLog := tradeLog + [t];
      cumulativePnl := cumulativePnl + t.trade.pnlPct;
      if cumulativePnl > peakPnl { peakPnl := cumulativePnl; }
      var dd := peakPnl - cumulativePnl;
      if dd > maxDrawdownPct { maxDrawdownPct := dd; }
      inPosition := false;
    }

    /** Moves the trailing stop for this bar; true if it was hit. */
    method TrackTrailingStop(c: Candle) returns (hit: bool)
      modifies this`trailingHigh, this`trailingLow, this`trailingStopPrice, this`trailingActivated
      ensures hit <==> A.AdaptiveTrailFires(env, old(Current()), c)
      ensures Current() == old(Current()).(trail := A.MoveAdaptiveTrail(env, old(Current()), c))
    {
      hit := false;
      if env.config.exit.trailingStop.Some? {
        var ts := env.config.exit.trailingStop.value;
        if ts.isPct && ts.activationPct.Some? && ts.callbackPct.Some? {
          if positionSide == Long {
            if c.high > trailingHigh { trailingHigh := c.high; }
            var activationPrice := InFavour(effectiveEntry, ts.activationPct.value, Long);
            if trailingHigh >= activationPrice {
              trailingActivated := true;
              trailingStopPrice := Against(trailingHigh, ts.callbackPct.value, Long);
            }
            hit := trailingActivated && c.low <= trailingStopPrice;
          } else {
            if c.low < trailingLow { trailingLow := c.low; }
            var activationPrice := InFavour(effectiveEntry, ts.activationPct.value, Short);
            if trailingLow <= activationPrice {
              trailingActivated := true;
              trailingStopPrice := Against(trailingLow, ts.callbackPct.value, Short);
            }
            hit := trailingActivated && c.high >= trailingStopPrice;
          }
        }
      }
    }

    /** The indicator exit's reading at bar `i`, if it applies to the side and its test holds. */
    method IndicatorExitFires(i: nat) returns (fires: bool)
      ensures fires <==> A.AdaptiveIndicatorFires(env, candles, i, positionSide)
    {
      fires := false;
      if env.config.exit.indicatorExit.Some? {
        var ie := env.config.exit.indicatorExit.value;
        if AppliesToSide(ie, positionSide) {
          var val := BacktestValue(env.lib, ie.indicator, candles, i);
          fires := val.Some? && EvalOp(ie.op, val.value, ie.value);
        }
      }
    }

    method SignedOutcome(price: real) returns (outcome: Outcome)
      ensures outcome == A.AdaptiveOutcome(env, positionSide, effectiveEntry, price)
    {
      var effectiveExit := price * A.AdaptiveExitMult(env.opts);
      var direction :=
        if positionSide == Long then effectiveExit - effectiveEntry else effectiveEntry - effectiveExit;
      outcome := if direction > 0.0 then Win else if direction < 0.0 then Loss else Neutral;
    }

    /** The first exit that fires on bar `i`, in the source's priority; the trail moves on the way. */
    method FindExit(i: nat) returns (x: Option<ExitFill>)
      requires i < |candles|
      modifies this`trailingHigh, this`trailingLow, this`trailingStopPrice, this`trailingActivated
      ensures x == A.AdaptiveDecide(env, candles, i, old(Current()))
      ensures x == None ==> Current() == old(Current()).(trail := A.MoveAdaptiveTrail(env, old(Current()), candles[i]))
      ensures exists t :: Current() == old(Current()).(trail := t)
    {
      hide A.MoveAdaptiveTrail;
      hide A.AdaptiveTrailFires;
      hide A.AdaptiveIndicatorFires;
      hide A.AdaptiveOutcome;
      var c := candles[i];
      if positionSide == Long && c.low <= slPrice {
        assert Current() == old(Current()).(trail := Current().trail);
        return Some(ExitFill(c.openTime, slPrice, Loss, BySl));
      }
      if positionSide == Short && c.high >= slPrice {
        assert Current() == old(Current()).(trail := Current().trail);
        return Some(ExitFill(c.openTime, slPrice, Loss, BySl));
      }
      var hit := TrackTrailingStop(c);
      if hit {
        return Some(ExitFill(c.openTime, trailingStopPrice,
                             TrailOutcome(positionSide, trailingStopPrice, effectiveEntry), ByTrailing));
      }
      var fires := IndicatorExitFires(i);
      if fires {
        var outcome := SignedOutcome(c.close);
        return Some(ExitFill(c.openTime, c.close, outcome, ByIndicator));
      }
      if positionSide == Long && c.high >= tpPrice { return Some(ExitFill(c.openTime, tpPrice, Win, ByTp)); }
      if positionSide == Short && c.low <= tpPrice { return Some(ExitFill(c.openTime, tpPrice, Win, ByTp)); }
      var maxBars := env.config.exit.maxBarsInPosition;
      if maxBars.Some? && i - entryBarIndex >= maxBars.value {
        var outcome := SignedOutcome(c.close);
        return Some(ExitFill(c.openTime, c.close, outcome, ByTime));
      }
      return None;
    }

    /** The exit half of a bar. */
    method CheckExits(i: nat)
      requires i < |candles| && inPosition
      modifies this
      ensures State() == A.AdaptiveStep(env, candles, i, old(State()))
    {
      hide A.AdaptiveDecide;
      hide A.MoveAdaptiveTrail;
      var barsHeld := i - entryBarIndex;
      ghost var a := A.AdaptivePosition(Current(), entryRegime);
      var x := FindExit(i);
      if x.Some? {
        assert A.AdaptiveTradeOf(env, A.AdaptivePosition(Current(), entryRegime), x.value, barsHeld)
            == A.AdaptiveTradeOf(env, a, x.value, barsHeld);
        RecordTrade(x.value, barsHeld);
      }
    }

    /** The entry half: the regime gates the entry and selects which strategy is asked. */
    method CheckEntry(i: nat, currentRegime: A.Regime)
      requires i < |candles| && !inPosition
      requires currentRegime == A.DetermineRegime(env.lib, env.config, i, candles)
      modifies this
      ensures State() == A.AdaptiveStep(env, candles, i, old(State()))
    {
      hide A.DetermineRegime;
      hide A.AdaptiveOpen;
      hide DetermineSide;
      hide SignalFires;
      hide A.AdaptiveDecide;
      hide A.MoveAdaptiveTrail;
      hide A.AdaptiveRecord;
      if currentRegime == A.NeutralRegime { return; }
      var activeEntry := if currentRegime == A.Trending then env.config.trendEntry else env.config.rangeEntry;
      var side := DetermineSide(env.lib, activeEntry, i, candles);
      if side == None { return; }
      if !SignalFires(env.lib, activeEntry, i, candles) { return; }
      EnterPosition(i, side.value);
      entryRegime := currentRegime;
    }

    /** Position variables, levels and trail. */
    method EnterPosition(i: nat, side: Side)
      requires i < |candles|
      modifies this`inPosition, this`positionSide, this`effectiveEntry, this`entryTime, this`entryBarIndex
      modifies this`slPrice, this`tpPrice
      modifies this`trailingHigh, this`trailingLow, this`trailingStopPrice, this`trailingActivated
      ensures inPosition && Current() == A.AdaptiveOpen(env, candles, i, side)
    {
      hide StopPrice;
      hide TargetPrice;
      var c := candles[i];
      inPosition, positionSide := true, side;
      effectiveEntry := Effective(c.close, A.AdaptiveEntryMult(env.opts));
      entryTime, entryBarIndex := c.openTime, i;
      slPrice := StopPrice(env.lib, env.config.exit.stopLoss, effectiveEntry, side, candles, i);
      tpPrice := TargetPrice(env.lib, env.config.exit.takeProfit, effectiveEntry, side, candles, i);
      trailingHigh, trailingLow, trailingStopPrice, trailingActivated := c.close, c.close, 0.0, false;
    }

    /** Whatever is still open is closed at the last candle. */
    method CloseAtEnd()
      requires |candles| > 0
      modifies this
      ensures State() == A.AdaptiveCloseOut(env, candles, old(State()))
    {
      hide A.AdaptiveOutcome;
      if inPosition {
        var last := candles[|candles| - 1];
        var outcome := SignedOutcome(last.close);
        RecordTrade(ExitFill(last.openTime, last.close, outcome, ByEndOfData), |candles| - 1 - entryBarIndex);
      }
    }

    /** The bar loop, classifying every bar, and the final close. */
    method Evaluate() returns (regimeLog: seq<A.Regime>)
      requires State() == A.ADAPTIVE_START
      modifies this
      ensures State() == A.AdaptiveFinal(env, candles)
      ensures regimeLog == A.RegimeLog(env, candles)
    {
      hide A.AdaptiveStep;
      hide A.AdaptiveCloseOut;
      hide A.DetermineRegime;
      regimeLog := [];
      if |candles| < 2 { return; }
      regimeLog := seq(|candles|, _ => A.NeutralRegime);
      for i := 1 to |candles|
        invariant State() == A.AdaptiveTo(env, candles, i)
        invariant |regimeLog| == |candles|
        invariant forall j :: 0 <= j < i ==> regimeLog[j] == A.RegimeLog(env, candles)[j]
        invariant forall j :: i <= j < |candles| ==> regimeLog[j] == A.NeutralRegime
      {
        var currentRegime := A.DetermineRegime(env.lib, env.config, i, candles);
        regimeLog := regimeLog[i := currentRegime];
        if inPosition {
          CheckExits(i);
        } else {
          CheckEntry(i, currentRegime);
        }
      }
      CloseAtEnd();
    }
  }

  /** The adaptive report, before rounding. */
  method RunAdaptiveBacktest(env: A.Env, candles: seq<Candle>)
    returns (tradeLog: seq<A.AdaptiveTrade>, regimeLog: seq<A.Regime>, maxDrawdownPct: real)
    ensures tradeLog == A.AdaptiveFinal(env, candles).log
    ensures maxDrawdownPct == A.AdaptiveFinal(env, candles).maxDrawdown
    ensures regimeLog == A.RegimeLog(env, candles)
  {
    hide A.AdaptiveFinal;
    hide A.RegimeLog;
    var evaluation := new Evaluation(env, candles);
    regimeLog := evaluation.Evaluate();
    tradeLog, maxDrawdownPct := evaluation.tradeLog, evaluation.maxDrawdownPct;
  }
}
