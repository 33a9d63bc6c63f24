/** When the live engines, driven bar by bar over growing windows, trade exactly as the backtest does. */
module LiveParity {
  import opened Wrappers
  import opened Market
  import opened Indicators
  import opened Signals
  import opened Strategy
  import opened Backtest
  import opened LiveEngine
  import opened Separation

  // ----- configurations on which the two resolvers agree -----

  /** Both resolvers ask for the same computation. */
  predicate SameQuery(ref: IndicatorRef) {
    QueryOf(ref.block, BacktestParams(ref.params)) == QueryOf(ref.block, LiveParams(ref.params))
  }

  predicate SideParity(entry: Entry) {
    || entry.side.Some?
    || entry.sideCondition == None
    || var sc := entry.sideCondition.value;
       && sc.mode != Some(IndicatorSign)
       && (SameQuery(sc.indicator) || (sc.longOp == OtherOp && sc.shortOp == OtherOp) || sc.source == Some(OtherField))
  }

  predicate ExitParity(ie: IndicatorExit) {
    SameQuery(ie.indicator) || ie.op == OtherOp
  }

  predicate Parity(dsl: Dsl) {
    && SideParity(dsl.entry)
    && (dsl.exit.Some? && dsl.exit.value.indicatorExit.Some? ==> ExitParity(dsl.exit.value.indicatorExit.value))
  }

  /** The resolvers part exactly on non-default MACD periods and volume profile bins. */
  lemma ResolversPart(ref: IndicatorRef)
    ensures SameQuery(ref) <==>
      match ref.block
      case MacdHistogram => MacdOf(ref.params) == MacdOf(NO_PARAMS)
      case MacdSignal => MacdOf(ref.params) == MacdOf(NO_PARAMS)
      case ProfilePoc => ref.params.bins.Else(24.0) == 24.0
      case ProfileVah => ref.params.bins.Else(24.0) == 24.0
      case ProfileVal => ref.params.bins.Else(24.0) == 24.0
      case _ => true
  {
  }

  ghost predicate SidesAgree(lib: Library, entry: Entry, i: nat, candles: seq<Candle>)
    requires i < |candles|
  {
    BacktestSide(lib, entry, i, candles) == DetermineSide(lib, entry, i, candles)
  }

  /** On all data, whatever the library. */
  ghost predicate SidesAlwaysAgree(entry: Entry) {
    forall lib: Library, candles: seq<Candle>, i: nat :: i < |candles| ==> SidesAgree(lib, entry, i, candles)
  }

  ghost predicate ExitsAgree(lib: Library, ie: IndicatorExit, side: Side, i: nat, candles: seq<Candle>) {
    ExitSignal(ie, side, BacktestValue(lib, ie.indicator, candles, i))
    <==> ExitSignal(ie, side, LiveValue(lib, ie.indicator, candles, i))
  }

  /** Indicator exits agree on all data and all libraries exactly under that condition, whatever their indicator. */
  lemma ExitsAgreeExactly(ie: IndicatorExit)
    ensures ExitParity(ie) <==>
      forall lib: Library, side: Side, candles: seq<Candle>, i: nat :: i < |candles| ==>
        ExitsAgree(lib, ie, side, i, candles)
  {
    if !ExitParity(ie) {
      var ref := ie.indicator;
      var live, back := QueryOf(ref.block, LiveParams(ref.params)), QueryOf(ref.block, BacktestParams(ref.params));
      var v := match ie.op
        case Gt => ie.value + 1.0
        case Lt => ie.value - 1.0
        case _ => ie.value;
      var lib, candles := Only(back.comp, v), [FlatCandle(1)];
      OnlyIsCausal(back.comp, v);
      OnlyValue(back.comp, v, live, candles, 0);
      OnlyValue(back.comp, v, back, candles, 0);
      var side := if ie.appliesTo == Some(OnlyShort) then Short else Long;
      assert !ExitsAgree(lib, ie, side, 0, candles);
    }
  }

  // ----- the driver -----

  datatype LivePosition = LivePosition(snapshot: Snapshot, entryTime: int, entryBar: int, trail: Trail)

  datatype LiveTrade = LiveTrade(
    entryTime: int,
    exitTime: int,
    side: Side,
    entryPrice: real,
    exitPrice: real,
    slPrice: Option<real>,
    tpPrice: Option<real>,
    reason: ExitReason,
    barsHeld: int
  )

  datatype LiveState = LiveState(position: Option<LivePosition>, log: seq<LiveTrade>)

  /** One tick: the window ends at bar `i`; ask for an exit when in position, for an entry when flat. */
  function Tick(lib: Library, dsl: Dsl, candles: seq<Candle>, i: nat, st: LiveState): LiveState
    requires i < |candles|
  {
    var window := candles[..i + 1];
    if st.position.Some? then
      var p := st.position.value;
      var (signal, trail) := ExitDecision(lib, dsl, window, p.snapshot, i - p.entryBar, p.trail);
      if signal.Some? then
        LiveState(None, st.log + [LiveTrade(p.entryTime, signal.value.triggerTime, signal.value.side,
                                            p.snapshot.avgEntryPrice, signal.value.price, p.snapshot.slPrice,
                                            p.snapshot.tpPrice, signal.value.reason, i - p.entryBar)])
      else st.(position := Some(p.(trail := trail)))
    else
      var signal := EvaluateEntry(lib, dsl, window, None);
      if signal.Some? then
        var s := signal.value;
        var snapshot := Snapshot(true, s.side, s.price, Some(s.slPrice), Some(s.tpPrice));
        st.(position := Some(LivePosition(snapshot, s.triggerTime, i, Trail(s.price, s.price, 0.0, false))))
      else st
  }

  function LiveTo(lib: Library, dsl: Dsl, candles: seq<Candle>, n: nat): LiveState
    requires n <= |candles|
  {
    if n <= 1 then LiveState(None, []) else Tick(lib, dsl, candles, n - 1, LiveTo(lib, dsl, candles, n - 1))
  }

  // ----- the refinement -----

  /** No costs, fills at the close, no safety orders. */
  predicate Frictionless(env: Env) {
    env.FeeBps() == 0.0 && env.SlippageBps() == 0.0 && env.FillMode() == AtClose && !env.IsDca()
  }

  function LiveView(p: Position): LivePosition {
    LivePosition(Snapshot(true, p.side, p.entry, Some(p.sl), Some(p.tp)), p.entryTime, p.entryBar, p.trail)
  }

  function TradeView(t: Trade): LiveTrade {
    LiveTrade(t.entryTime, t.exitTime, t.side, t.entryPrice, t.exitPrice, Some(t.slPrice), Some(t.tpPrice),
              t.reason, t.barsHeld)
  }

  function LogView(log: seq<Trade>): seq<LiveTrade> {
    seq(|log|, k requires 0 <= k < |log| => TradeView(log[k]))
  }

  function RunView(st: Run): LiveState {
    LiveState(if st.position.Some? then Some(LiveView(st.position.value)) else None, LogView(st.log))
  }

  lemma EntriesMatch(env: Env, candles: seq<Candle>, i: nat)
    requires Frictionless(env) && Parity(env.dsl) && 1 <= i < |candles| && Settled(env, candles, i + 1)
    ensures
      var signal := EvaluateEntry(env.lib, env.dsl, candles[..i + 1], None);
      var position := Enter(env, candles, i);
      && (signal.Some? <==> position.Some?)
      && (position.Some? ==>
            && position.value.ladder == None
            && LiveView(position.value)
               == LivePosition(Snapshot(true, signal.value.side, signal.value.price, Some(signal.value.slPrice),
                                        Some(signal.value.tpPrice)),
                               signal.value.triggerTime, i,
                               Trail(signal.value.price, signal.value.price, 0.0, false)))
  {
    hide Parity;
    hide SidesAgree;
    hide EvaluateEntry;
    hide SignalFires;
    hide ProximityPasses;
    hide StopPrice;
    hide TargetPrice;
    hide Open;
    hide EntryFill;
    WindowEntry(env.lib, env.dsl, candles, i);
    var side := BacktestSide(env.lib, env.dsl.entry, i, candles);
    if side.Some? {
      FrictionlessOpen(env, candles, i, side.value);
    }
  }

  /** On the window ending at a bar, `EvaluateEntry` decides by the backtest's own gates at that bar. */
  lemma WindowEntry(lib: Library, dsl: Dsl, candles: seq<Candle>, i: nat)
    requires Parity(dsl) && 1 <= i < |candles| && AgreesOn(lib, BacktestReads(dsl), candles, i + 1)
    ensures
      var c, side := candles[i], BacktestSide(lib, dsl.entry, i, candles);
      EvaluateEntry(lib, dsl, candles[..i + 1], None) ==
        if side == None || !SignalFires(lib, dsl.entry, i, candles)
           || !ProximityPasses(lib, dsl.entry.proximityFilter, i, candles)
        then None
        else Some(OpenSignal(side.value, c.close, StopPrice(lib, StopDef(dsl), c.close, side.value, candles, i),
                             TargetPrice(lib, TargetDef(dsl), c.close, side.value, candles, i), c.openTime))
  {
    hide AgreesOn;
    hide Parity;
    hide SignalFires;
    hide ProximityPasses;
    hide DetermineSide;
    hide BacktestSide;
    hide StopPrice;
    hide TargetPrice;
    hide BacktestReads;
    WindowGates(lib, dsl, candles, i);
    var side := BacktestSide(lib, dsl.entry, i, candles);
    if side.Some? {
      WindowLevels(lib, dsl, candles, i, candles[i].close, side.value);
    }
  }

  lemma WindowGates(lib: Library, dsl: Dsl, candles: seq<Candle>, i: nat)
    requires Parity(dsl) && i < |candles| && AgreesOn(lib, BacktestReads(dsl), candles, i + 1)
    ensures DetermineSide(lib, dsl.entry, i, candles[..i + 1]) == BacktestSide(lib, dsl.entry, i, candles)
    ensures SignalFires(lib, dsl.entry, i, candles[..i + 1]) <==> SignalFires(lib, dsl.entry, i, candles)
    ensures ProximityPasses(lib, dsl.entry.proximityFilter, i, candles[..i + 1])
       <==> ProximityPasses(lib, dsl.entry.proximityFilter, i, candles)
  {
    PartsAgree(lib, dsl, candles, i + 1);
    hide *;
    WindowSide(lib, dsl, candles, i);
    GatesAreCausal(lib, dsl, i, candles, i + 1);
  }

  lemma WindowLevels(lib: Library, dsl: Dsl, candles: seq<Candle>, i: nat, entry: real, side: Side)
    requires i < |candles| && AgreesOn(lib, BacktestReads(dsl), candles, i + 1)
    ensures StopPrice(lib, StopDef(dsl), entry, side, candles[..i + 1], i)
         == StopPrice(lib, StopDef(dsl), entry, side, candles, i)
    ensures TargetPrice(lib, TargetDef(dsl), entry, side, candles[..i + 1], i)
         == TargetPrice(lib, TargetDef(dsl), entry, side, candles, i)
  {
    PartsAgree(lib, dsl, candles, i + 1);
    hide *;
    LevelsAreCausal(lib, StopDef(dsl), entry, side, i, candles, i + 1);
    LevelsAreCausal(lib, TargetDef(dsl), entry, side, i, candles, i + 1);
  }

  /** The live side on the window is the backtest's side on all candles. */
  lemma WindowSide(lib: Library, dsl: Dsl, candles: seq<Candle>, i: nat)
    requires Parity(dsl) && i < |candles| && AgreesOn(lib, BacktestRead(SideRef(dsl.entry)), candles, i + 1)
    ensures DetermineSide(lib, dsl.entry, i, candles[..i + 1]) == BacktestSide(lib, dsl.entry, i, candles)
  {
    SidesAreCausal(lib, dsl.entry, i, candles, i + 1);
    assert SidesAgree(lib, dsl.entry, i, candles[..i + 1]);
  }

  /** Without costs a position opens at the bar's close. */
  lemma FrictionlessOpen(env: Env, candles: seq<Candle>, i: nat, side: Side)
    requires Frictionless(env) && i < |candles|
    ensures
      var c := candles[i];
      && EntryFill(env, candles, i) == Some((c.close, c.openTime, i))
      && Open(env, candles, i, side, (c.close, c.openTime, i))
         == Position(side, c.close, c.openTime, i,
                     StopPrice(env.lib, StopDef(env.dsl), c.close, side, candles, i),
                     TargetPrice(env.lib, TargetDef(env.dsl), c.close, side, candles, i),
                     Trail(c.close, c.close, 0.0, false), None)
  {
    assert Effective(candles[i].close, env.EntryMult()) == candles[i].close;
    hide Effective;
  }

  lemma ExitsMatch(env: Env, candles: seq<Candle>, i: nat, p: Position)
    requires Frictionless(env) && Parity(env.dsl) && i < |candles| && Settled(env, candles, i + 1)
    ensures
      var (signal, trail) :=
        ExitDecision(env.lib, env.dsl, candles[..i + 1], LiveView(p).snapshot, i - p.entryBar, p.trail);
      var fill := Decide(env, candles, i, p);
      && (signal.Some? <==> fill.Some?)
      && (fill.Some? ==> signal.value == CloseSignal(p.side, fill.value.price, fill.value.reason, fill.value.time))
      && (fill == None ==> trail == TrailNow(env, p, candles[i]))
  {
    if env.dsl.exit.Some? && env.dsl.exit.value.indicatorExit.Some? {
      var ie := env.dsl.exit.value.indicatorExit.value;
      PartsAgree(env.lib, env.dsl, candles, i + 1);
      ExitValueIsCausal(env.lib, ie.indicator, i, candles, i + 1);
      assert ExitsAgree(env.lib, ie, p.side, i, candles[..i + 1]);
    }
  }

  lemma RecordMatches(env: Env, st: Run, p: Position, x: ExitFill, bars: int)
    requires Frictionless(env)
    ensures RunView(Record(st, TradeOf(env, p, x, bars)))
         == LiveState(None, LogView(st.log) + [LiveTrade(p.entryTime, x.time, p.side, p.entry, x.price,
                                                        Some(p.sl), Some(p.tp), x.reason, bars)])
  {
    hide PnlPct;
    NothingCharged(env, x.price);
    LogViewAppend(st.log, TradeOf(env, p, x, bars));
  }

  lemma NothingCharged(env: Env, price: real)
    requires Frictionless(env)
    ensures env.Net(price) == price
  {
    var m := env.ExitMult();
    assert m == 1.0;
    assert env.Net(price) == price * m;
  }

  lemma LogViewAppend(log: seq<Trade>, t: Trade)
    ensures LogView(log + [t]) == LogView(log) + [TradeView(t)]
  {
    hide TradeView;
  }

  /** On every window the live engines see, the strategy reads what the backtest reads on all candles. */
  ghost predicate SettledThroughout(env: Env, candles: seq<Candle>, n: nat)
    requires n <= |candles|
  {
    forall w: nat :: w <= n ==> Settled(env, candles, w)
  }

  /**
   * Live/backtest refinement: at every bar the live driver is in the same position, with the same side,
   * levels and trailing state, and has closed the same trades at the same bars, prices and reasons.
   */
  lemma {:induction false} LiveRefinesBacktest(env: Env, candles: seq<Candle>, n: nat)
    requires Frictionless(env) && Parity(env.dsl) && n <= |candles| && SettledThroughout(env, candles, n)
    ensures RunView(RunTo(env, candles, n)) == LiveTo(env.lib, env.dsl, candles, n)
    ensures RunTo(env, candles, n).position.Some? ==> RunTo(env, candles, n).position.value.ladder == None
  {
    hide Decide;
    hide ExitDecision;
    hide Enter;
    hide EvaluateEntry;
    hide Settled;
    if n > 1 {
      LiveRefinesBacktest(env, candles, n - 1);
      var st, i := RunTo(env, candles, n - 1), n - 1;
      if st.position.Some? {
        var p := st.position.value;
        ExitsMatch(env, candles, i, p);
        if Decide(env, candles, i, p).Some? {
          RecordMatches(env, st, p, Decide(env, candles, i, p).value, i - p.entryBar);
        }
      } else {
        EntriesMatch(env, candles, i);
      }
    }
  }
}
