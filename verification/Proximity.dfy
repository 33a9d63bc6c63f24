/** What the proximity filter does to entries, in the backtest and live. */
module Proximity {
  import opened Wrappers
  import opened Market
  import opened Reals
  import opened Indicators
  import opened Strategy
  import opened DcaPlanning
  import opened Backtest
  import opened LiveEngine

  /** The level the filter reads at bar `i`. */
  function LevelAt(lib: Library, pf: ProximityFilter, candles: seq<Candle>, i: int): Option<real> {
    ValueAt(lib, QueryOf(pf.levelSource.Else(ProfilePoc), NO_PARAMS), candles, i)
  }

  /** The prices within the threshold of the level, which is a distance or a percentage of it. */
  predicate InBand(pf: ProximityFilter, level: real, price: real) {
    if pf.absolute then level - pf.threshold <= price <= level + pf.threshold
    else level * (1.0 - pf.threshold / 100.0) <= price <= level * (1.0 + pf.threshold / 100.0)
  }

  /** Where the filter has a say: its level is there and not zero. */
  predicate Applies(lib: Library, pf: ProximityFilter, candles: seq<Candle>, i: int) {
    LevelAt(lib, pf, candles, i).Some? && LevelAt(lib, pf, candles, i).value != 0.0
  }

  function Unfiltered(dsl: Dsl): Dsl {
    dsl.(entry := dsl.entry.(proximityFilter := None))
  }

  lemma DistanceInBand(level: real, price: real, t: real)
    requires level > 0.0
    ensures Abs(price - level) / level * 100.0 <= t
      <==> level * (1.0 - t / 100.0) <= price <= level * (1.0 + t / 100.0)
  {
    var d, u := Abs(price - level), t / 100.0;
    var q := d / level;
    assert q * level == d;
    MulOrder(q, u, level, d, level * u);
    assert level * (1.0 - u) == level - level * u && level * (1.0 + u) == level + level * u;
  }

  /** The gate, for a positive level, or a distance from any: it lets through exactly the band. */
  lemma GateIsBand(lib: Library, pf: ProximityFilter, candles: seq<Candle>, i: nat)
    requires i < |candles|
    requires Applies(lib, pf, candles, i) ==> pf.absolute || LevelAt(lib, pf, candles, i).value > 0.0
    ensures ProximityPasses(lib, Some(pf), i, candles)
      <==> !Applies(lib, pf, candles, i) || InBand(pf, LevelAt(lib, pf, candles, i).value, candles[i].close)
  {
    hide ValueAt;
    hide QueryOf;
    if Applies(lib, pf, candles, i) && !pf.absolute {
      DistanceInBand(LevelAt(lib, pf, candles, i).value, candles[i].close, pf.threshold);
    }
  }

  /**
   * The backtest enters with the filter exactly what it enters without, where the close lies in the band or the
   * filter has no say, and nothing elsewhere.
   */
  lemma FilterKeepsBand(env: Env, pf: ProximityFilter, candles: seq<Candle>, i: nat)
    requires i < |candles| && env.dsl.entry.proximityFilter == Some(pf)
    requires Applies(env.lib, pf, candles, i) ==> pf.absolute || LevelAt(env.lib, pf, candles, i).value > 0.0
    ensures Enter(env, candles, i) ==
      if !Applies(env.lib, pf, candles, i) || InBand(pf, LevelAt(env.lib, pf, candles, i).value, candles[i].close)
      then Enter(env.(dsl := Unfiltered(env.dsl)), candles, i) else None
  {
    GateIsBand(env.lib, pf, candles, i);
    SameOpen(env, candles, i);
    hide ProximityPasses;
    hide Applies;
    hide InBand;
    hide BacktestSide;
    hide Open;
    hide SignalFires;
    NoFilter(env.lib, candles, i);
    UnfilteredAsks(env, candles, i);
  }

  lemma NoFilter(lib: Library, candles: seq<Candle>, i: nat)
    requires i < |candles|
    ensures ProximityPasses(lib, None, i, candles)
  {
  }

  /** The filter is no part of side or signal. */
  lemma UnfilteredAsks(env: Env, candles: seq<Candle>, i: nat)
    requires i < |candles|
    ensures
      var plain := Unfiltered(env.dsl).entry;
      && (SignalFires(env.lib, plain, i, candles) <==> SignalFires(env.lib, env.dsl.entry, i, candles))
      && BacktestSide(env.lib, plain, i, candles) == BacktestSide(env.lib, env.dsl.entry, i, candles)
      && DetermineSide(env.lib, plain, i, candles) == DetermineSide(env.lib, env.dsl.entry, i, candles)
  {
    hide SideByPrice;
    hide BacktestValue;
    hide LiveValue;
    hide SignOf;
  }

  /** Nor of the position. */
  lemma SameOpen(env: Env, candles: seq<Candle>, i: nat)
    requires i < |candles|
    ensures forall side, fill ::
      Open(env.(dsl := Unfiltered(env.dsl)), candles, i, side, fill) == Open(env, candles, i, side, fill)
    ensures EntryFill(env.(dsl := Unfiltered(env.dsl)), candles, i) == EntryFill(env, candles, i)
  {
    hide StopPrice;
    hide TargetPrice;
    hide Effective;
    hide Against;
    hide InFavour;
    hide Levels;
  }

  /** Live entries likewise, on the last candle of the window. */
  lemma LiveFilterKeepsBand(lib: Library, dsl: Dsl, pf: ProximityFilter, candles: seq<Candle>,
                            position: Option<Snapshot>)
    requires |candles| > 0 && dsl.entry.proximityFilter == Some(pf)
    requires
      var i := |candles| - 1;
      Applies(lib, pf, candles, i) ==> pf.absolute || LevelAt(lib, pf, candles, i).value > 0.0
    ensures
      var i := |candles| - 1;
      EvaluateEntry(lib, dsl, candles, position) ==
        if !Applies(lib, pf, candles, i) || InBand(pf, LevelAt(lib, pf, candles, i).value, candles[i].close)
        then EvaluateEntry(lib, Unfiltered(dsl), candles, position) else None
  {
    var i := |candles| - 1;
    GateIsBand(lib, pf, candles, i);
    UnfilteredAsks(Env(lib, dsl, ExecOpts(None, None, None, None)), candles, i);
    NoFilter(lib, candles, i);
    hide ProximityPasses;
    hide Applies;
    hide InBand;
    hide DetermineSide;
    hide SignalFires;
    hide StopPrice;
    hide TargetPrice;
  }
}
