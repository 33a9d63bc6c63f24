/** Why a backtest enters and leaves, in terms of the candles: over every run nothing is missed and nothing made up. */
module RunReasons {
  import opened Wrappers
  import opened Market
  import opened Reals
  import opened Signals
  import opened DcaPlanning
  import opened Strategy
  import opened Backtest
  import opened TradeLabels

  // ----- exits -----

  /** The bar trades at the price or beyond it, downwards or upwards. */
  predicate Reaches(c: Candle, price: real, downwards: bool) {
    if downwards then c.low <= price else price <= c.high
  }

  /** On bar `i`, with its safety orders filled, there is this reason to leave. */
  predicate Due(env: Env, candles: seq<Candle>, i: nat, p: Position, reason: ExitReason)
    requires i < |candles|
  {
    var c := candles[i];
    match reason
    case BySl => Reaches(c, p.sl, p.side == Long)
    case ByTrailing =>
      TrailSet(env) && TrailNow(env, p, c).active && Reaches(c, TrailNow(env, p, c).stop, p.side == Long)
    case ByIndicator =>
      && env.dsl.exit.Some? && env.dsl.exit.value.indicatorExit.Some?
      && var ie := env.dsl.exit.value.indicatorExit.value;
         && ie.appliesTo != Some(if p.side == Long then OnlyShort else OnlyLong)
         && BacktestValue(env.lib, ie.indicator, candles, i).Some?
         && EvalOp(ie.op, BacktestValue(env.lib, ie.indicator, candles, i).value, ie.value)
    case ByTp => Reaches(c, p.tp, p.side == Short)
    case ByTime =>
      && env.dsl.exit.Some? && env.dsl.exit.value.maxBarsInPosition.Some?
      && p.entryBar + env.dsl.exit.value.maxBarsInPosition.value <= i
    case ByEndOfData => false
  }

  /** The strategy has a percentage trailing stop with both its numbers. */
  predicate TrailSet(env: Env) {
    && env.dsl.exit.Some? && env.dsl.exit.value.trailingStop.Some?
    && env.dsl.exit.value.trailingStop.value.isPct
    && env.dsl.exit.value.trailingStop.value.activationPct.Some?
    && env.dsl.exit.value.trailingStop.value.callbackPct.Some?
  }

  /** Stops before everything else, the target after the indicator, time last. */
  const PRIORITY: seq<ExitReason> := [BySl, ByTrailing, ByIndicator, ByTp, ByTime]

  /** The first reason in that order that is due. */
  function FirstDue(env: Env, candles: seq<Candle>, i: nat, p: Position, k: nat): Option<ExitReason>
    requires i < |candles|
    decreases |PRIORITY| - k
  {
    if k >= |PRIORITY| then None
    else if Due(env, candles, i, p, PRIORITY[k]) then Some(PRIORITY[k])
    else FirstDue(env, candles, i, p, k + 1)
  }

  /** Raw price and time at which a reason takes effect; only indicator exits follow the fill mode. */
  predicate FilledAt(env: Env, candles: seq<Candle>, i: nat, p: Position, reason: ExitReason, price: real, time: int)
    requires i < |candles|
  {
    var c := candles[i];
    match reason
    case BySl => price == p.sl && time == c.openTime
    case ByTrailing => price == TrailNow(env, p, c).stop && time == c.openTime
    case ByIndicator =>
      if env.FillMode() == AtNextOpen && i + 1 < |candles|
      then price == candles[i + 1].open && time == candles[i + 1].openTime
      else price == (if env.FillMode() == AtOpen then c.open else c.close) && time == c.openTime
    case ByTp => price == p.tp && time == c.openTime
    case ByTime => price == c.close && time == c.openTime
    case ByEndOfData => false
  }

  lemma DecideIsFirstDue(env: Env, candles: seq<Candle>, i: nat, p: Position)
    requires i < |candles|
    ensures
      var x, first := Decide(env, candles, i, p), FirstDue(env, candles, i, p, 0);
      && (x.Some? <==> first.Some?)
      && (x.Some? ==> x.value.reason == first.value
                      && FilledAt(env, candles, i, p, first.value, x.value.price, x.value.time))
  {
    hide TrailNow;
    hide BacktestValue;
    hide EvalOp;
    hide OutcomeAt;
    hide TrailOutcome;
    Unrolled(env, candles, i, p);
    hide FirstDue;
  }

  lemma Unrolled(env: Env, candles: seq<Candle>, i: nat, p: Position)
    requires i < |candles|
    ensures FirstDue(env, candles, i, p, 0) ==
      if Due(env, candles, i, p, BySl) then Some(BySl)
      else if Due(env, candles, i, p, ByTrailing) then Some(ByTrailing)
      else if Due(env, candles, i, p, ByIndicator) then Some(ByIndicator)
      else if Due(env, candles, i, p, ByTp) then Some(ByTp)
      else if Due(env, candles, i, p, ByTime) then Some(ByTime)
      else None
  {
    hide Due;
    assert FirstDue(env, candles, i, p, 5) == None;
    assert FirstDue(env, candles, i, p, 4) == if Due(env, candles, i, p, ByTime) then Some(ByTime) else None;
    assert FirstDue(env, candles, i, p, 3)
        == if Due(env, candles, i, p, ByTp) then Some(ByTp) else FirstDue(env, candles, i, p, 4);
    assert FirstDue(env, candles, i, p, 2)
        == if Due(env, candles, i, p, ByIndicator) then Some(ByIndicator) else FirstDue(env, candles, i, p, 3);
    assert FirstDue(env, candles, i, p, 1)
        == if Due(env, candles, i, p, ByTrailing) then Some(ByTrailing) else FirstDue(env, candles, i, p, 2);
  }

  /** The trade records the position, left for this reason at its price less costs. */
  ghost predicate LeftBy(env: Env, candles: seq<Candle>, i: nat, p: Position, reason: ExitReason, t: Trade)
    requires i < |candles|
  {
    && t.reason == reason && t.side == p.side && t.entryPrice == p.entry && t.entryTime == p.entryTime
    && t.slPrice == p.sl && t.tpPrice == p.tp && t.barsHeld == i - p.entryBar
    && exists price ::
         && FilledAt(env, candles, i, p, reason, price, t.exitTime)
         && t.exitPrice == price * (1.0 - (env.FeeBps() + env.SlippageBps()) / 10000.0)
  }

  lemma TradeIsLeftBy(env: Env, candles: seq<Candle>, i: nat, p: Position)
    requires i < |candles| && Decide(env, candles, i, p).Some?
    ensures
      var x := Decide(env, candles, i, p).value;
      LeftBy(env, candles, i, p, x.reason, TradeOf(env, p, x, i - p.entryBar))
  {
    DecideIsFirstDue(env, candles, i, p);
    var x := Decide(env, candles, i, p).value;
    PaidAtExit(env, p, x, i - p.entryBar);
    hide Decide;
    hide FirstDue;
    hide FilledAt;
    hide PnlPct;
    var t := TradeOf(env, p, x, i - p.entryBar);
    assert FilledAt(env, candles, i, p, x.reason, x.price, t.exitTime);
  }

  lemma PaidAtExit(env: Env, p: Position, x: ExitFill, bars: int)
    ensures TradeOf(env, p, x, bars).exitPrice == x.price * (1.0 - (env.FeeBps() + env.SlippageBps()) / 10000.0)
  {
    hide PnlPct;
  }

  /**
   * On every bar of every run an open position, with the bar's safety orders filled, is left exactly if some
   * reason is due: for the first due, at its price less costs.
   */
  lemma BarLeavesExactly(env: Env, candles: seq<Candle>, i: nat)
    requires 1 <= i < |candles| && RunTo(env, candles, i).position.Some?
    ensures
      var before, after := RunTo(env, candles, i), RunTo(env, candles, i + 1);
      var p := FillLadder(env, candles[i], before.position.value);
      match FirstDue(env, candles, i, p, 0)
      case None => after == before.(position := Some(p.(trail := TrailNow(env, p, candles[i]))))
      case Some(first) =>
        && after.position == None && |after.log| == |before.log| + 1 && after.log[..|before.log|] == before.log
        && LeftBy(env, candles, i, p, first, after.log[|before.log|])
  {
    var before := RunTo(env, candles, i);
    var p := FillLadder(env, candles[i], before.position.value);
    DecideIsFirstDue(env, candles, i, p);
    assert RunTo(env, candles, i + 1) == Step(env, candles, i, before);
    if Decide(env, candles, i, p).Some? { TradeIsLeftBy(env, candles, i, p); }
    hide FillLadder;
    hide Decide;
    hide FirstDue;
    hide TrailNow;
    hide LeftBy;
    hide TradeOf;
    hide RunTo;
  }

  // ----- entries -----

  /** The candle's field of that name. */
  predicate Reads(c: Candle, source: Field, x: real) {
    match source
    case OpenPrice => x == c.open
    case HighPrice => x == c.high
    case LowPrice => x == c.low
    case ClosePrice => x == c.close
    case VolumeField => x == c.volume
    case OpenTime => x == c.openTime as real
    case OtherField => false
  }

  /**
   * The side the strategy takes at bar `i`: its fixed one, or long if the source stands to the indicator as the
   * long test says, or else short if it does as the short test says.
   */
  ghost predicate Takes(env: Env, candles: seq<Candle>, i: nat, side: Side)
    requires i < |candles|
  {
    var entry := env.dsl.entry;
    || entry.side == Some(side)
    || (&& entry.side == None && entry.sideCondition.Some?
        && var sc := entry.sideCondition.value;
           var val := BacktestValue(env.lib, sc.indicator, candles, i);
           && val.Some?
           && exists x :: Reads(candles[i], sc.source.Else(ClosePrice), x)
                && (if EvalOp(sc.longOp, x, val.value) then side == Long
                    else side == Short && EvalOp(sc.shortOp, x, val.value)))
  }

  /** Where an entry signalled at bar `i` fills: at its open, its close, or the next open if there is one. */
  predicate EntersAt(env: Env, candles: seq<Candle>, i: nat, price: real, time: int, bar: int)
    requires i < |candles|
  {
    match env.FillMode()
    case AtOpen => price == candles[i].open && time == candles[i].openTime && bar == i
    case AtClose => price == candles[i].close && time == candles[i].openTime && bar == i
    case AtNextOpen =>
      i + 1 < |candles| && price == candles[i + 1].open && time == candles[i + 1].openTime && bar == i + 1
  }

  lemma SideIsTaken(env: Env, candles: seq<Candle>, i: nat, side: Side)
    requires i < |candles|
    ensures BacktestSide(env.lib, env.dsl.entry, i, candles) == Some(side) <==> Takes(env, candles, i, side)
  {
    hide BacktestValue;
    hide EvalOp;
    var entry := env.dsl.entry;
    if entry.side == None && entry.sideCondition.Some? {
      var source := entry.sideCondition.value.source.Else(ClosePrice);
      var field := CandleField(candles[i], source);
      assert forall x :: Reads(candles[i], source, x) <==> field == Some(x);
    }
  }

  /** Opened on bar `i` on this side, at the fill plus costs, its trail starting from the bar's close. */
  ghost predicate OpenedOn(env: Env, candles: seq<Candle>, i: nat, p: Position)
    requires i < |candles|
  {
    && p.trail == Trail(candles[i].close, candles[i].close, 0.0, false)
    && exists price ::
         && EntersAt(env, candles, i, price, p.entryTime, p.entryBar)
         && p.entry == price * (1.0 + (env.FeeBps() + env.SlippageBps()) / 10000.0)
  }

  /** Some side is wanted at the bar, the filter lets it through, and it can fill. */
  ghost predicate Wanted(env: Env, candles: seq<Candle>, i: nat, side: Side)
    requires i < |candles|
  {
    && SignalFires(env.lib, env.dsl.entry, i, candles)
    && Takes(env, candles, i, side)
    && ProximityPasses(env.lib, env.dsl.entry.proximityFilter, i, candles)
    && (env.FillMode() == AtNextOpen ==> i + 1 < |candles|)
  }

  lemma OpensOn(env: Env, candles: seq<Candle>, i: nat, side: Side, fill: (Price, int, nat))
    requires i < |candles| && EntersAt(env, candles, i, fill.0, fill.1, fill.2)
    ensures Open(env, candles, i, side, fill).side == side
    ensures OpenedOn(env, candles, i, Open(env, candles, i, side, fill))
  {
    hide OpenLadder;
    hide StopPrice;
    hide TargetPrice;
    hide EntersAt;
    var p := Open(env, candles, i, side, fill);
    PaidAtEntry(env, fill.0);
    hide Effective;
    assert EntersAt(env, candles, i, fill.0, p.entryTime, p.entryBar);
  }

  lemma PaidAtEntry(env: Env, price: Price)
    ensures Effective(price, env.EntryMult()) == price * (1.0 + (env.FeeBps() + env.SlippageBps()) / 10000.0)
  {
  }

  lemma EnterIsWanted(env: Env, candles: seq<Candle>, i: nat)
    requires i < |candles|
    ensures
      var p := Enter(env, candles, i);
      && (p.Some? <==> exists side :: Wanted(env, candles, i, side))
      && (p.Some? ==> Wanted(env, candles, i, p.value.side) && OpenedOn(env, candles, i, p.value))
  {
    hide SignalFires;
    hide ProximityPasses;
    hide BacktestSide;
    hide Takes;
    hide StopPrice;
    hide TargetPrice;
    SideIsTaken(env, candles, i, Long);
    SideIsTaken(env, candles, i, Short);
    var p := Enter(env, candles, i);
    if p.Some? {
      var fill := EntryFill(env, candles, i).value;
      assert EntersAt(env, candles, i, fill.0, p.value.entryTime, p.value.entryBar);
      OpensOn(env, candles, i, p.value.side, fill);
      hide Open;
      assert Wanted(env, candles, i, p.value.side);
    }
    hide Open;
    hide OpenedOn;
    forall side | Wanted(env, candles, i, side) ensures p.Some? {
      assert side == Long || side == Short;
    }
  }

  /** On every bar of every run that finds it flat, the backtest enters exactly if some side is wanted there. */
  lemma BarEntersExactly(env: Env, candles: seq<Candle>, i: nat)
    requires 1 <= i < |candles| && RunTo(env, candles, i).position == None
    ensures
      var before, after := RunTo(env, candles, i), RunTo(env, candles, i + 1);
      && after.log == before.log
      && (after.position.Some? <==> exists side :: Wanted(env, candles, i, side))
      && (after.position.Some? ==>
            Wanted(env, candles, i, after.position.value.side) && OpenedOn(env, candles, i, after.position.value))
  {
    EnterIsWanted(env, candles, i);
    hide Enter;
    hide Wanted;
    hide OpenedOn;
    assert RunTo(env, candles, i + 1) == Step(env, candles, i, RunTo(env, candles, i));
  }

  /** The percentage of the entry that separates it from a level. */
  predicate Apart(entry: real, level: real, pct: real) {
    Abs(entry - level) * 100.0 == entry * pct
  }

  /**
   * A position opened without a ladder has its stop on the losing side and its target on the winning one, at the
   * configured distances: the exit section's; without one the entry's; else the risk per trade, and twice that.
   */
  lemma LevelsAsConfigured(env: Env, candles: seq<Candle>, i: nat)
    requires i < |candles| && Enter(env, candles, i).Some? && !env.IsDca()
    requires StopDef(env.dsl).kind != AtrMultiple && StopDef(env.dsl).value > 0.0
    requires TargetDef(env.dsl).kind != AtrMultiple && TargetDef(env.dsl).value > 0.0
    ensures
      var p, dsl := Enter(env, candles, i).value, env.dsl;
      && (if p.side == Long then p.sl < p.entry < p.tp else p.tp < p.entry < p.sl)
      && (dsl.exit.Some? ==>
            && Apart(p.entry, p.sl, dsl.exit.value.stopLoss.value)
            && Apart(p.entry, p.tp, dsl.exit.value.takeProfit.value))
      && (dsl.exit == None && dsl.entry.stopLoss.Some? ==> Apart(p.entry, p.sl, dsl.entry.stopLoss.value.value))
      && (dsl.exit == None && dsl.entry.stopLoss == None ==> Apart(p.entry, p.sl, dsl.riskPerTradePct))
      && (dsl.exit == None && dsl.entry.takeProfit.Some? ==> Apart(p.entry, p.tp, dsl.entry.takeProfit.value.value))
      && (dsl.exit == None && dsl.entry.takeProfit == None ==> Apart(p.entry, p.tp, 2.0 * dsl.riskPerTradePct))
  {
    hide SignalFires;
    hide ProximityPasses;
    hide BacktestSide;
    var p := Enter(env, candles, i).value;
    PercentsAway(p.entry, StopDef(env.dsl).value);
    PercentsAway(p.entry, TargetDef(env.dsl).value);
  }

  /**
   * A ladder takes over the stop the strategy sets, exactly unless that lies on the winning side of the entry; its
   * target is its own percentage.
   */
  lemma LadderTakesOverStop(env: Env, candles: seq<Candle>, i: nat)
    requires i < |candles| && Enter(env, candles, i).Some? && env.IsDca()
    ensures
      var p := Enter(env, candles, i).value;
      var stop := StopPrice(env.lib, StopDef(env.dsl), p.entry, p.side, candles, i);
      && (StopDef(env.dsl).kind != FixedPct ==> (p.sl == stop <==> !Beyond(p.entry, stop, p.side)))
      && (StopDef(env.dsl).kind == FixedPct ==> p.sl == stop)
      && Beyond(p.entry, p.tp, p.side) && Apart(p.entry, p.tp, env.dsl.dca.value.takeProfitPct)
  {
    hide SignalFires;
    hide ProximityPasses;
    hide BacktestSide;
    var p := Enter(env, candles, i).value;
    var stop := StopPrice(env.lib, StopDef(env.dsl), p.entry, p.side, candles, i);
    PercentsAway(p.entry, env.dsl.dca.value.takeProfitPct);
    DistanceBack(p.entry, stop, p.side, Abs(p.entry - stop) / p.entry * 100.0);
    ChecksDecideValidity(env.dsl.dca.value);
    hide StopPrice;
    hide Levels;
  }

  /** A price is its own distance in percent away, on the side it is on. */
  lemma DistanceBack(entry: real, stop: real, side: Side, pct: real)
    requires entry > 0.0 && pct == Abs(entry - stop) / entry * 100.0
    ensures Against(entry, pct, side) == stop <==> !Beyond(entry, stop, side)
  {
    var d := Abs(entry - stop);
    var q := d / entry;
    assert q * entry == d && pct / 100.0 == q;
    assert entry * (1.0 - q) == entry - d && entry * (1.0 + q) == entry + d;
  }

  // ----- the end, and what a trade made -----

  /** Data that ends in a position closes it at the last close less costs; nothing else is added to the log. */
  lemma EndLeavesExactly(env: Env, candles: seq<Candle>)
    requires |candles| >= 2
    ensures
      var n := |candles|;
      var open, before, after := RunTo(env, candles, n).position, RunTo(env, candles, n).log, Final(env, candles).log;
      && (open == None ==> after == before)
      && (open.Some? ==>
            && |after| == |before| + 1 && after[..|before|] == before
            && var t := after[|before|];
               && t.reason == ByEndOfData && t.side == open.value.side && t.entryPrice == open.value.entry
               && t.entryTime == open.value.entryTime && t.exitTime == candles[n - 1].openTime
               && t.barsHeld == n - 1 - open.value.entryBar
               && t.exitPrice == candles[n - 1].close * (1.0 - (env.FeeBps() + env.SlippageBps()) / 10000.0))
  {
    hide RunTo;
    hide PnlPct;
    hide OutcomeAt;
    hide OutcomeOf;
  }

  /** The profit of a trade is its return: for a long, what it left with over what it entered with. */
  lemma PnlIsReturn(env: Env, candles: seq<Candle>, k: nat)
    requires k < |Final(env, candles).log|
    ensures
      var t := Final(env, candles).log[k];
      && t.entryPrice > 0.0
      && t.exitPrice == t.entryPrice * (if t.side == Long then 1.0 + t.pnlPct / 100.0 else 1.0 - t.pnlPct / 100.0)
  {
    hide Final;
    hide PnlPct;
    FinalLabelled(env, candles);
    var t := Final(env, candles).log[k];
    assert Labelled(env, t);
    ReturnOf(t.side, t.exitPrice, t.entryPrice, t.pnlPct);
  }

  lemma ReturnOf(side: Side, exit: real, entry: real, pnl: real)
    requires entry > 0.0 && pnl == PnlPct(side, exit, entry)
    ensures exit == entry * (if side == Long then 1.0 + pnl / 100.0 else 1.0 - pnl / 100.0)
  {
    var gain := if side == Long then exit - entry else entry - exit;
    var q := gain / entry;
    assert q * entry == gain && pnl / 100.0 == q;
    assert entry * (1.0 + q) == entry + q * entry && entry * (1.0 - q) == entry - q * entry;
  }

  // ----- the trailing stop -----

  /** The highest price since the close of bar `s`, up to but not including bar `n`. */
  function HighSince(candles: seq<Candle>, s: nat, n: nat): real
    requires s < n <= |candles|
  {
    if n == s + 1 then candles[s].close
    else
      var before := HighSince(candles, s, n - 1);
      if candles[n - 1].high > before then candles[n - 1].high else before
  }

  function LowSince(candles: seq<Candle>, s: nat, n: nat): real
    requires s < n <= |candles|
  {
    if n == s + 1 then candles[s].close
    else
      var before := LowSince(candles, s, n - 1);
      if candles[n - 1].low < before then candles[n - 1].low else before
  }

  /** The bar the entry was signalled on. */
  function SignalBar(env: Env, p: Position): int {
    if env.FillMode() == AtNextOpen then p.entryBar - 1 else p.entryBar
  }

  /** The trail, before bar `n`, of a position signalled on bar `s`: by the best price since, and nothing else. */
  ghost predicate TrailIsMark(candles: seq<Candle>, ts: TrailingStop, s: nat, n: nat, p: Position)
    requires s < n <= |candles| && Trails(ts)
  {
    var a, b := ts.activationPct.value / 100.0, ts.callbackPct.value / 100.0;
    match p.side
    case Long =>
      var high := HighSince(candles, s, n);
      && p.trail.high == high
      && (n > s + 1 ==> (p.trail.active <==> high >= p.entry * (1.0 + a)))
      && (p.trail.active ==> n > s + 1 && p.trail.stop == high * (1.0 - b))
    case Short =>
      var low := LowSince(candles, s, n);
      && p.trail.low == low
      && (n > s + 1 ==> (p.trail.active <==> low <= p.entry * (1.0 - a)))
      && (p.trail.active ==> n > s + 1 && p.trail.stop == low * (1.0 + b))
  }

  lemma MarkMoves(candles: seq<Candle>, ts: TrailingStop, s: nat, n: nat, p: Position)
    requires s < n < |candles| && Trails(ts) && TrailIsMark(candles, ts, s, n, p)
    ensures TrailIsMark(candles, ts, s, n + 1, p.(trail := MoveTrail(ts, p.side, p.entry, p.trail, candles[n])))
  {
  }

  /**
   * Without safety orders, a trailing stop is the callback below (for shorts, above) the best price since the
   * signal's close, from the first bar on which that has moved by the activation; over every run and bar.
   */
  lemma {:induction false} TrailFollowsBestPrice(env: Env, candles: seq<Candle>, n: nat)
    requires n <= |candles| && TrailSet(env) && !env.IsDca()
    ensures
      var at := RunTo(env, candles, n).position;
      at.Some? ==>
        && at.value.ladder == None && 1 <= SignalBar(env, at.value) < n
        && TrailIsMark(candles, env.dsl.exit.value.trailingStop.value, SignalBar(env, at.value), n, at.value)
  {
    hide TrailIsMark;
    hide Decide;
    hide MoveTrail;
    hide Enter;
    if n > 1 {
      TrailFollowsBestPrice(env, candles, n - 1);
      var st := RunTo(env, candles, n - 1);
      if st.position.Some? {
        var p := st.position.value;
        assert FillLadder(env, candles[n - 1], p) == p;
        MarkMoves(candles, env.dsl.exit.value.trailingStop.value, SignalBar(env, p), n - 1, p);
      } else if Enter(env, candles, n - 1).Some? {
        MarkStarts(env, candles, n - 1);
      }
    }
  }

  lemma MarkStarts(env: Env, candles: seq<Candle>, i: nat)
    requires 1 <= i < |candles| && TrailSet(env) && !env.IsDca() && Enter(env, candles, i).Some?
    ensures
      var p := Enter(env, candles, i).value;
      && p.ladder == None && SignalBar(env, p) == i
      && TrailIsMark(candles, env.dsl.exit.value.trailingStop.value, i, i + 1, p)
  {
    EnterIsWanted(env, candles, i);
    hide SignalFires;
    hide ProximityPasses;
    hide BacktestSide;
    hide StopPrice;
    hide TargetPrice;
    hide Effective;
  }
}
