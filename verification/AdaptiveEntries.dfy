/** Why the regime-switching backtest is in a position, by which strategy and regime, and what it all adds up to. */
module AdaptiveEntries {
  import opened Wrappers
  import opened Market
  import opened Indicators
  import opened Strategy
  import opened Backtest
  import opened TradeLog
  import opened Adaptive

  function AdxAt(env: Adaptive.Env, candles: seq<Candle>, i: int): Option<real> {
    ValueAt(env.lib, QueryOf(AdxBlock, NO_PARAMS.(period := Some(env.config.adxPeriod))), candles, i)
  }

  /** At bar `i` the strategy's signal fires, and it decides for this side. */
  predicate Asks(env: Adaptive.Env, entry: Entry, candles: seq<Candle>, i: nat, side: Side)
    requires i < |candles|
  {
    SignalFires(env.lib, entry, i, candles) && DetermineSide(env.lib, entry, i, candles) == Some(side)
  }

  /** The trend strategy asks above the trend threshold; else, below the range threshold, the range strategy. */
  predicate AskedFor(env: Adaptive.Env, candles: seq<Candle>, i: nat, side: Side, regime: Regime)
    requires i < |candles|
  {
    && AdxAt(env, candles, i).Some?
    && var adx := AdxAt(env, candles, i).value;
       || (regime == Trending && adx > env.config.trendThreshold && Asks(env, env.config.trendEntry, candles, i, side))
       || (regime == Ranging && adx <= env.config.trendThreshold && adx < env.config.rangeThreshold
           && Asks(env, env.config.rangeEntry, candles, i, side))
  }

  /** Flat before a bar, a run enters on it exactly if some side was asked for, and at the close plus costs. */
  lemma EntersExactly(env: Adaptive.Env, candles: seq<Candle>, i: nat)
    requires 1 <= i < |candles| && AdaptiveTo(env, candles, i).position == None
    ensures
      var after := AdaptiveTo(env, candles, i + 1).position;
      && (after.Some? <==> exists side, regime :: AskedFor(env, candles, i, side, regime))
      && (after.Some? ==>
            && AskedFor(env, candles, i, after.value.p.side, after.value.entryRegime)
            && OpenedAt(env, candles, i, after.value.p))
  {
    hide SignalFires;
    hide DetermineSide;
    hide AdxAt;
    hide QueryOf;
    hide Effective;
    hide StopPrice;
    hide TargetPrice;
    EnterIsAsked(env, candles, i);
    hide AskedFor;
    hide AdaptiveEnter;
    hide OpenedAt;
    assert AdaptiveTo(env, candles, i + 1) == AdaptiveStep(env, candles, i, AdaptiveTo(env, candles, i));
  }

  ghost predicate OpenedAt(env: Adaptive.Env, candles: seq<Candle>, i: nat, p: Position)
    requires i < |candles|
  {
    && p.entryTime == candles[i].openTime && p.entryBar == i
    && p.entry == candles[i].close * (1.0 + (env.opts.feeBps.Else(0.0) + env.opts.slippageBps.Else(0.0)) / 10000.0)
    && p.trail == Trail(candles[i].close, candles[i].close, 0.0, false)
  }

  lemma EnterIsAsked(env: Adaptive.Env, candles: seq<Candle>, i: nat)
    requires i < |candles|
    ensures
      var a := AdaptiveEnter(env, candles, i);
      && (a.Some? <==> exists side, regime :: AskedFor(env, candles, i, side, regime))
      && (a.Some? ==> AskedFor(env, candles, i, a.value.p.side, a.value.entryRegime))
      && (a.Some? ==> OpenedAt(env, candles, i, a.value.p))
  {
    hide SignalFires;
    hide DetermineSide;
    hide QueryOf;
    hide StopPrice;
    hide TargetPrice;
    if AdaptiveEnter(env, candles, i).Some? {
      var a := AdaptiveEnter(env, candles, i).value;
      assert AskedFor(env, candles, i, a.p.side, a.entryRegime);
    }
  }

  /** A bar after the first asked for the trade, in the regime it carries. */
  ghost predicate Justified(env: Adaptive.Env, candles: seq<Candle>, entryTime: int, side: Side, regime: Regime) {
    exists b: nat ::
      1 <= b < |candles| && candles[b].openTime == entryTime && AskedFor(env, candles, b, side, regime)
  }

  ghost predicate AllJustified(env: Adaptive.Env, candles: seq<Candle>, log: seq<AdaptiveTrade>) {
    forall k :: 0 <= k < |log| ==>
      Justified(env, candles, log[k].trade.entryTime, log[k].trade.side, log[k].entryRegime)
  }

  ghost predicate PositionJustified(env: Adaptive.Env, candles: seq<Candle>, a: AdaptivePosition) {
    Justified(env, candles, a.p.entryTime, a.p.side, a.entryRegime)
  }

  lemma {:induction false} RunsAreJustified(env: Adaptive.Env, candles: seq<Candle>, n: nat)
    requires n <= |candles|
    ensures
      var st := AdaptiveTo(env, candles, n);
      && AllJustified(env, candles, st.log)
      && (st.position.Some? ==> PositionJustified(env, candles, st.position.value))
  {
    hide AdaptiveDecide;
    hide AdaptiveEnter;
    hide Justified;
    hide MoveAdaptiveTrail;
    if n > 1 {
      RunsAreJustified(env, candles, n - 1);
      EnteredIsJustified(env, candles, n - 1);
    }
  }

  lemma EnteredIsJustified(env: Adaptive.Env, candles: seq<Candle>, i: nat)
    requires 1 <= i < |candles|
    ensures AdaptiveEnter(env, candles, i).Some? ==>
      PositionJustified(env, candles, AdaptiveEnter(env, candles, i).value)
  {
    EnterIsAsked(env, candles, i);
    hide AdaptiveEnter;
    hide AskedFor;
  }

  /**
   * Every trade of every run, the final one included, was asked for at its entry bar by the strategy of its
   * regime: by the trend entry where the ADX is above the trend threshold, by the range entry where it is not
   * and is below the range threshold.
   */
  lemma TradesAreJustified(env: Adaptive.Env, candles: seq<Candle>, k: nat)
    requires k < |AdaptiveFinal(env, candles).log|
    ensures
      var t := AdaptiveFinal(env, candles).log[k];
      Justified(env, candles, t.trade.entryTime, t.trade.side, t.entryRegime)
  {
    hide Justified;
    hide AdaptiveTo;
    RunsAreJustified(env, candles, |candles|);
  }

  // ----- what the run adds up to -----

  /** The run without its regimes, as the plain backtest keeps it. */
  function Plain(st: AdaptiveRun): Run {
    Run(if st.position.Some? then Some(st.position.value.p) else None,
        seq(|st.log|, k requires 0 <= k < |st.log| => st.log[k].trade), st.cumulative, st.peak, st.maxDrawdown)
  }

  lemma PlainRecord(st: AdaptiveRun, t: AdaptiveTrade)
    ensures Plain(AdaptiveRecord(st, t)) == Record(Plain(st), t.trade)
  {
  }

  lemma {:induction false} RunIsAccountedFor(env: Adaptive.Env, candles: seq<Candle>, n: nat)
    requires n <= |candles|
    ensures Accounted(Plain(AdaptiveTo(env, candles, n)))
  {
    hide Accounted;
    hide AdaptiveDecide;
    hide AdaptiveTradeOf;
    hide AdaptiveEnter;
    hide AdaptiveRecord;
    if n <= 1 {
      NothingIsAccounted();
      assert Plain(ADAPTIVE_START) == START;
    } else {
      RunIsAccountedFor(env, candles, n - 1);
      var st := AdaptiveTo(env, candles, n - 1);
      PositionIsNoAccount(Plain(st), Plain(AdaptiveTo(env, candles, n)).position);
      if st.position.Some? {
        var a := st.position.value;
        var x := AdaptiveDecide(env, candles, n - 1, a.p);
        if x.Some? {
          var t := AdaptiveTradeOf(env, a, x.value, n - 1 - a.p.entryBar);
          RecordKeepsAccounts(Plain(st), t.trade);
          PlainRecord(st, t);
        }
      }
    }
  }

  /** The adaptive report too: its profit is its log's sum, its drawdown the largest fall of that from a peak. */
  lemma AdaptiveReportIsAccounted(env: Adaptive.Env, candles: seq<Candle>)
    ensures Accounted(Plain(AdaptiveFinal(env, candles)))
  {
    hide Accounted;
    hide AdaptiveTradeOf;
    hide AdaptiveRecord;
    hide AdaptiveTo;
    if |candles| < 2 {
      NothingIsAccounted();
      assert Plain(ADAPTIVE_START) == START;
    } else {
      RunIsAccountedFor(env, candles, |candles|);
      var st := AdaptiveTo(env, candles, |candles|);
      if st.position.Some? {
        var a := st.position.value;
        var t := AdaptiveTradeOf(env, a, AdaptiveEndFill(env, candles[|candles| - 1], a.p),
                                 |candles| - 1 - a.p.entryBar);
        RecordKeepsAccounts(Plain(st), t.trade);
        PlainRecord(st, t);
      }
    }
  }
}
