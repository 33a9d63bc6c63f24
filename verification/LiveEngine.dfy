/** The live engines: entries on the latest candle (`signalEngine.ts`) and exits (`exitEngine.ts`). */
module LiveEngine {
  import opened Wrappers
  import opened Market
  import opened Reals
  import opened Indicators
  import opened DcaPlanning
  import opened Strategy
  import opened Backtest

  datatype Snapshot = Snapshot(
    open: bool,
    side: Side,
    avgEntryPrice: real,
    slPrice: Option<real>,
    tpPrice: Option<real>
  )

  datatype OpenSignal = OpenSignal(side: Side, price: Price, slPrice: real, tpPrice: real, triggerTime: int)

  datatype CloseSignal = CloseSignal(side: Side, price: real, reason: ExitReason, triggerTime: int)

  /** An entry signal on the latest candle of the window, unless a position is open. */
  function EvaluateEntry(lib: Library, dsl: Dsl, candles: seq<Candle>, position: Option<Snapshot>): Option<OpenSignal> {
    if position.Some? && position.value.open then None
    else if |candles| < 2 then None
    else
      var i := |candles| - 1;
      var side := DetermineSide(lib, dsl.entry, i, candles);
      if side == None || !SignalFires(lib, dsl.entry, i, candles)
         || !ProximityPasses(lib, dsl.entry.proximityFilter, i, candles)
      then None
      else
        var price := candles[i].close;
        Some(OpenSignal(side.value, price,
                        StopPrice(lib, StopDef(dsl), price, side.value, candles, i),
                        TargetPrice(lib, TargetDef(dsl), price, side.value, candles, i),
                        candles[i].openTime))
  }

  /** The levels stored with the position, or recomputed if either is missing. */
  function ExitLevels(lib: Library, dsl: Dsl, candles: seq<Candle>, p: Snapshot): (real, real)
    requires |candles| > 0
  {
    if p.slPrice.Some? && p.tpPrice.Some? then (p.slPrice.value, p.tpPrice.value)
    else
      var i := |candles| - 1;
      (StopPrice(lib, StopDef(dsl), p.avgEntryPrice, p.side, candles, i),
       TargetPrice(lib, TargetDef(dsl), p.avgEntryPrice, p.side, candles, i))
  }

  function TrailingOf(dsl: Dsl): Option<TrailingStop> {
    if dsl.exit.Some? && dsl.exit.value.trailingStop.Some? && Trails(dsl.exit.value.trailingStop.value)
    then dsl.exit.value.trailingStop else None
  }

  predicate LiveIndicatorFires(lib: Library, dsl: Dsl, candles: seq<Candle>, side: Side) {
    && dsl.exit.Some? && dsl.exit.value.indicatorExit.Some?
    && var ie := dsl.exit.value.indicatorExit.value;
       ExitSignal(ie, side, LiveValue(lib, ie.indicator, candles, |candles| - 1))
  }

  predicate LiveTimeIsUp(dsl: Dsl, barsHeld: int) {
    dsl.exit.Some? && dsl.exit.value.maxBarsInPosition.Some? && barsHeld >= dsl.exit.value.maxBarsInPosition.value
  }

  /** What `EvaluateExit` returns and the trailing state it leaves behind. */
  function ExitDecision(lib: Library, dsl: Dsl, candles: seq<Candle>, p: Snapshot, barsHeld: int, t: Trail)
    : (Option<CloseSignal>, Trail)
  {
    if |candles| < 1 || !p.open then (None, t)
    else
      var c := candles[|candles| - 1];
      var (sl, tp) := ExitLevels(lib, dsl, candles, p);
      if StopHit(p.side, sl, c) then (Some(CloseSignal(p.side, sl, BySl, c.openTime)), t)
      else
        var ts := TrailingOf(dsl);
        var moved := if ts.Some? then MoveTrail(ts.value, p.side, p.avgEntryPrice, t, c) else t;
        if ts.Some? && TrailHit(p.side, moved, c) then
          (Some(CloseSignal(p.side, moved.stop, ByTrailing, c.openTime)), moved)
        else if LiveIndicatorFires(lib, dsl, candles, p.side) then
          (Some(CloseSignal(p.side, c.close, ByIndicator, c.openTime)), moved)
        else if TargetHit(p.side, tp, c) then
          (Some(CloseSignal(p.side, tp, ByTp, c.openTime)), moved)
        else if LiveTimeIsUp(dsl, barsHeld) then
          (Some(CloseSignal(p.side, c.close, ByTime, c.openTime)), moved)
        else
          (None, moved)
  }

  /**
   * A position that lacks a level is decided as one that carries the two levels an entry would be given, on the
   * same window, at its average price; one that has both is decided by those.
   */
  lemma MissingLevelsAreEntryLevels(lib: Library, dsl: Dsl, candles: seq<Candle>, p: Snapshot, s: OpenSignal,
                                    barsHeld: int, t: Trail)
    requires EvaluateEntry(lib, dsl, candles, None) == Some(s) && s.side == p.side && s.price == p.avgEntryPrice
    requires p.slPrice == None || p.tpPrice == None
    ensures ExitDecision(lib, dsl, candles, p, barsHeld, t)
         == ExitDecision(lib, dsl, candles, p.(slPrice := Some(s.slPrice), tpPrice := Some(s.tpPrice)), barsHeld, t)
  {
    hide StopPrice;
    hide TargetPrice;
    hide MoveTrail;
    hide TrailHit;
    hide LiveIndicatorFires;
    hide StopHit;
    hide TargetHit;
    hide ProximityPasses;
    hide SignalFires;
    hide DetermineSide;
  }

  /**
   * Positive levels lie on either side of the price they are taken at: the stop on the losing side, the target on
   * the winning one; the same level as stop and as target, equally far.
   */
  lemma LevelsBracketPrice(lib: Library, level: ExitLevel, entry: real, side: Side, candles: seq<Candle>, i: int)
    requires entry > 0.0 && level.value > 0.0
    requires level.kind == AtrMultiple ==> AtrAt(lib, level, candles, i) > 0.0
    ensures
      var stop := StopPrice(lib, level, entry, side, candles, i);
      var target := TargetPrice(lib, level, entry, side, candles, i);
      && entry - stop == target - entry
      && (if side == Long then stop < entry < target else target < entry < stop)
  {
    hide AtrAt;
    if level.kind == AtrMultiple {
      MulPos(level.value, AtrAt(lib, level, candles, i));
    } else {
      PercentsAway(entry, level.value);
    }
  }

  /** Where the ATR is not there yet, both levels lie on the price itself. */
  lemma MissingAtrIsNoDistance(lib: Library, level: ExitLevel, entry: real, side: Side, candles: seq<Candle>, i: int)
    requires level.kind == AtrMultiple && ValueAt(lib, AtrQuery(level), candles, i) == None
    ensures StopPrice(lib, level, entry, side, candles, i) == entry
    ensures TargetPrice(lib, level, entry, side, candles, i) == entry
  {
    hide ValueAt;
    hide QueryOf;
  }

  /** Trailing stop state, carried by the caller between ticks and updated in place. */
  class TrailingStopState {
    var highWaterMark: real
    var lowWaterMark: real
    var activated: bool
    var trailingStopPrice: real

    function State(): Trail
      reads this
    {
      Trail(highWaterMark, lowWaterMark, trailingStopPrice, activated)
    }

    constructor (entryPrice: real)
      ensures State() == Trail(entryPrice, entryPrice, 0.0, false)
      ensures highWaterMark == lowWaterMark == entryPrice && !activated
    {
      highWaterMark, lowWaterMark, activated, trailingStopPrice := entryPrice, entryPrice, false, 0.0;
    }

    /** Water mark, activation and stop price for this candle; true if the stop was hit. */
    method Track(ts: TrailingStop, side: Side, avgEntryPrice: real, c: Candle) returns (hit: bool)
      requires Trails(ts)
      modifies this
      ensures State() == MoveTrail(ts, side, avgEntryPrice, old(State()), c)
      ensures hit <==> TrailHit(side, State(), c)
      ensures highWaterMark == if side == Long then Max(old(highWaterMark), c.high) else old(highWaterMark)
      ensures lowWaterMark == if side == Short then Min(old(lowWaterMark), c.low) else old(lowWaterMark)
    {
      match side {
        case Long =>
          if c.high > highWaterMark { highWaterMark := c.high; }
          if highWaterMark >= InFavour(avgEntryPrice, ts.activationPct.value, Long) {
            activated := true;
            trailingStopPrice := Against(highWaterMark, ts.callbackPct.value, Long);
          }
          hit := activated && c.low <= trailingStopPrice;
        case Short =>
          if c.low < lowWaterMark { lowWaterMark := c.low; }
          if lowWaterMark <= InFavour(avgEntryPrice, ts.activationPct.value, Short) {
            activated := true;
            trailingStopPrice := Against(lowWaterMark, ts.callbackPct.value, Short);
          }
          hit := activated && c.high >= trailingStopPrice;
      }
    }

    /** Stop, trailing stop, indicator, target, time: the first that fires closes the position. */
    method EvaluateExit(lib: Library, dsl: Dsl, candles: seq<Candle>, p: Snapshot, barsHeld: int)
      returns (signal: Option<CloseSignal>)
      modifies this
      ensures (signal, State()) == ExitDecision(lib, dsl, candles, p, barsHeld, old(State()))
    {
      if |candles| < 1 { return None; }
      if !p.open { return None; }
      var c := candles[|candles| - 1];
      var (slPrice, tpPrice) := ExitLevels(lib, dsl, candles, p);
      if p.side == Long && c.low <= slPrice { return Some(CloseSignal(p.side, slPrice, BySl, c.openTime)); }
      if p.side == Short && c.high >= slPrice { return Some(CloseSignal(p.side, slPrice, BySl, c.openTime)); }

      if TrailingOf(dsl).Some? {
        var hit := Track(TrailingOf(dsl).value, p.side, p.avgEntryPrice, c);
        if hit { return Some(CloseSignal(p.side, trailingStopPrice, ByTrailing, c.openTime)); }
      }
      if LiveIndicatorFires(lib, dsl, candles, p.side) {
        return Some(CloseSignal(p.side, c.close, ByIndicator, c.openTime));
      }
      if p.side == Long && c.high >= tpPrice { return Some(CloseSignal(p.side, tpPrice, ByTp, c.openTime)); }
      if p.side == Short && c.low <= tpPrice { return Some(CloseSignal(p.side, tpPrice, ByTp, c.openTime)); }
      if LiveTimeIsUp(dsl, barsHeld) { return Some(CloseSignal(p.side, c.close, ByTime, c.openTime)); }
      return None;
    }
  }
}
