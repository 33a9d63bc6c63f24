/** What holds of the open position at every bar of every backtest. */
module BacktestInvariants {
  import opened Wrappers
  import opened Market
  import opened Reals
  import opened DcaPlanning
  import opened DcaLadder
  import opened DslValidator
  import opened Backtest

  /** The position's levels are those of a ladder on which the recorded number of rungs has filled. */
  ghost predicate LadderOk(config: DcaConfig, p: Position)
    requires p.ladder.Some?
  {
    var l := p.ladder.value;
    var k := l.state.safetyOrdersFilled;
    && |l.state.fills| > 0
    && var base := l.state.fills[0].price;
    && Usable(config, base, p.side)
    && k <= config.maxSafetyOrders
    && OnLadder(config, base, p.side, l.slPct, k, l.state)
    && l.pending == Levels(config, base, p.side, config.maxSafetyOrders)[k..]
    && p.entry == l.state.avgEntryPrice && p.tp == l.state.tpPrice && p.sl == l.state.slPrice
  }

  ghost predicate PositionOk(env: Env, p: Position) {
    && p.entry > 0.0
    && (p.ladder.Some? <==> env.IsDca())
    && (p.ladder.Some? ==> LadderOk(env.dsl.dca.value, p))
  }

  lemma {:induction false} FirstFillIsBase(config: DcaConfig, entry: real, side: Side, k: nat)
    requires Usable(config, entry, side) && k <= config.maxSafetyOrders
    ensures LadderFills(config, entry, side, k)[0].price == entry
  {
    if k > 0 {
      FirstFillIsBase(config, entry, side, k - 1);
    }
  }

  lemma AverageIsPositive(config: DcaConfig, entry: real, side: Side, slPct: real, k: nat, s: DcaState)
    requires Usable(config, entry, side) && k <= config.maxSafetyOrders && OnLadder(config, entry, side, slPct, k, s)
    ensures s.avgEntryPrice > 0.0
  {
    LadderGrows(config, k);
    if s.avgEntryPrice <= 0.0 {
      MulMono(s.avgEntryPrice, 0.0, s.totalQty);
    }
  }

  lemma OpenIsOk(env: Env, candles: seq<Candle>, i: nat, side: Side, fill: (Price, int, nat))
    requires i < |candles|
    ensures PositionOk(env, Open(env, candles, i, side, fill))
  {
    var p := Open(env, candles, i, side, fill);
    if env.IsDca() {
      var config := env.dsl.dca.value;
      var base := p.ladder.value.state.fills[0].price;
      ChecksDecideValidity(config);
      TriggersPositive(config, base, side);
      OpenIsOnLadder(config, base, side, p.ladder.value.slPct);
    }
  }

  /** A bar fills the next rungs of the same ladder, leaving the rest pending. */
  lemma FillLadderKeeps(env: Env, c: Candle, p: Position)
    requires PositionOk(env, p)
    ensures PositionOk(env, FillLadder(env, c, p))
    ensures p.ladder.Some? ==>
      && FillLadder(env, c, p).ladder.value.state.safetyOrdersFilled
           == p.ladder.value.state.safetyOrdersFilled + ReachedCount(p.ladder.value.pending, c, p.side)
      && FillLadder(env, c, p).ladder.value.state.fills[0] == p.ladder.value.state.fills[0]
  {
    if p.ladder.Some? && ReachedCount(p.ladder.value.pending, c, p.side) > 0 {
      var config, l := env.dsl.dca.value, p.ladder.value;
      var base, k, n := l.state.fills[0].price, l.state.safetyOrdersFilled, ReachedCount(l.pending, c, p.side);
      var levels := Levels(config, base, p.side, config.maxSafetyOrders);
      assert l.pending[..n] == levels[k..k + n] && l.pending[n..] == levels[k + n..];
      FillManyKeepsLadder(config, base, p.side, l.slPct, k, n, l.state);
      var state := FillMany(config, l.slPct, l.state, l.pending[..n]);
      FirstFillIsBase(config, base, p.side, k + n);
      AverageIsPositive(config, base, p.side, l.slPct, k + n, state);
      FirstFillKept(config, base, p.side, k, k + n);
    }
  }

  lemma {:induction false} FirstFillKept(config: DcaConfig, entry: real, side: Side, k: nat, n: nat)
    requires Usable(config, entry, side) && k <= n <= config.maxSafetyOrders
    ensures LadderFills(config, entry, side, n)[0] == LadderFills(config, entry, side, k)[0]
    decreases n
  {
    if k < n {
      FirstFillKept(config, entry, side, k, n - 1);
    }
  }

  /** Every reachable open position is consistent. */
  lemma {:induction false} RunInvariant(env: Env, candles: seq<Candle>, n: nat)
    requires n <= |candles|
    ensures var st := RunTo(env, candles, n); st.position.Some? ==> PositionOk(env, st.position.value)
  {
    if n > 1 {
      RunInvariant(env, candles, n - 1);
      var st := RunTo(env, candles, n - 1);
      if st.position.Some? {
        FillLadderKeeps(env, candles[n - 1], st.position.value);
      } else {
        var fill := EntryFill(env, candles, n - 1);
        if Enter(env, candles, n - 1).Some? {
          OpenIsOk(env, candles, n - 1, Enter(env, candles, n - 1).value.side, fill.value);
        }
      }
    }
  }

  /** The position as it stands on bar `n` once that bar's safety orders have filled, before the exits. */
  ghost function MidBar(env: Env, candles: seq<Candle>, n: nat): Option<Position>
    requires n < |candles|
  {
    var st := RunTo(env, candles, n);
    if st.position.Some? then Some(FillLadder(env, candles[n], st.position.value)) else None
  }

  /**
   * The exposure cap over whole runs: if the validator accepts the strategy, no bar of any backtest ever
   * commits more capital than `risk.maxPositionSizeUsd`, whatever the candles, indicators and costs.
   */
  lemma ExposureNeverExceedsCap(env: Env, dca: RawDca, dslVersion: int, cap: real, candles: seq<Candle>, n: nat)
    requires n <= |candles|
    requires InSchema(dca) && env.dsl.dca == Some(ConfigOf(dca))
    requires Accepted(dslVersion, dca, Some(cap))
    ensures env.IsDca()
    ensures n < |candles| ==>
      var p := MidBar(env, candles, n);
      p.Some? ==> p.value.ladder.Some? && p.value.ladder.value.state.totalCostUsd <= cap
    ensures var p := RunTo(env, candles, n).position;
      p.Some? ==> p.value.ladder.Some? && p.value.ladder.value.state.totalCostUsd <= cap
  {
    AcceptanceCapsExposure(dslVersion, dca, Some(cap));
    ChecksDecideValidity(ConfigOf(dca));
    RunInvariant(env, candles, n);
    var p := RunTo(env, candles, n).position;
    if p.Some? && n < |candles| {
      FillLadderKeeps(env, candles[n], p.value);
    }
  }

  /** On every bar of a run, a pending safety order fills exactly if the bar reached its trigger. */
  lemma BarFillsExactlyReached(env: Env, candles: seq<Candle>, n: nat, p: Position, j: nat)
    requires n < |candles| && env.IsDca()
    requires RunTo(env, candles, n).position == Some(p)
    ensures PositionOk(env, p) && PositionOk(env, FillLadder(env, candles[n], p))
    ensures
      var before, after := p.ladder.value.state, FillLadder(env, candles[n], p).ladder.value.state;
      before.safetyOrdersFilled <= j < env.dsl.dca.value.maxSafetyOrders ==>
        (j < after.safetyOrdersFilled
         <==> var trigger := Level(env.dsl.dca.value, before.fills[0].price, p.side, j).triggerPrice;
              if p.side == Long then candles[n].low <= trigger else candles[n].high >= trigger)
  {
    RunInvariant(env, candles, n);
    FillLadderKeeps(env, candles[n], p);
    var config, before := env.dsl.dca.value, p.ladder.value.state;
    if before.safetyOrdersFilled <= j < config.maxSafetyOrders {
      PopsExactlyReached(config, before.fills[0].price, p.side, before.safetyOrdersFilled, j, candles[n]);
    }
  }

  /** Before exits, safety orders only ever improve the entry the position is measured against. */
  lemma {:induction false} FillsNeverWorsenEntry(config: DcaConfig, base: real, side: Side, slPct: real,
                                                 k: nat, n: nat, s: DcaState)
    requires Usable(config, base, side) && k + n <= config.maxSafetyOrders && n > 0
    requires OnLadder(config, base, side, slPct, k, s)
    ensures
      var orders := Levels(config, base, side, config.maxSafetyOrders)[k..k + n];
      Beyond(FillMany(config, slPct, s, orders).avgEntryPrice, s.avgEntryPrice, side)
    decreases n
  {
    var orders := Levels(config, base, side, config.maxSafetyOrders)[k..k + n];
    assert orders[0] == Level(config, base, side, k);
    FillImprovesAverage(config, base, side, slPct, k, s);
    FillKeepsLadder(config, base, side, slPct, k, s);
    assert orders[1..] == Levels(config, base, side, config.maxSafetyOrders)[k + 1..k + n];
    if n > 1 {
      FillsNeverWorsenEntry(config, base, side, slPct, k + 1, n - 1, FillLevel(config, slPct, s, orders[0]));
    }
  }
}
