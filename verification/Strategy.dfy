/** The strategy description the engines read, and the decisions all of them share (`dslEvaluator.ts`). */
module Strategy {
  import opened Wrappers
  import opened Market
  import opened Reals
  import opened Indicators
  import opened Signals
  import opened DcaPlanning

  datatype IndicatorRef = IndicatorRef(block: Block, params: Params)

  datatype LevelKind = FixedPct | FixedPrice | AtrMultiple

  datatype ExitLevel = ExitLevel(kind: LevelKind, value: real, atrPeriod: Option<real>)

  datatype AppliesTo = OnlyLong | OnlyShort | Both

  datatype IndicatorExit = IndicatorExit(indicator: IndicatorRef, op: Op, value: real, appliesTo: Option<AppliesTo>)

  /** Only the percentage kind has an effect; the ATR kind is accepted and ignored. */
  datatype TrailingStop = TrailingStop(isPct: bool, activationPct: Option<real>, callbackPct: Option<real>)

  datatype Field = OpenPrice | HighPrice | LowPrice | ClosePrice | VolumeField | OpenTime | OtherField

  datatype SideMode = PriceVsIndicator | IndicatorSign

  datatype SideCondition = SideCondition(
    indicator: IndicatorRef,
    source: Option<Field>,
    mode: Option<SideMode>,
    longOp: Op,
    shortOp: Op
  )

  datatype ProximityFilter = ProximityFilter(threshold: real, absolute: bool, levelSource: Option<Block>)

  datatype Entry = Entry(
    side: Option<Side>,
    sideCondition: Option<SideCondition>,
    signal: Option<Signal>,
    proximityFilter: Option<ProximityFilter>,
    stopLoss: Option<ExitLevel>,
    takeProfit: Option<ExitLevel>
  )

  datatype Exit = Exit(
    stopLoss: ExitLevel,
    takeProfit: ExitLevel,
    indicatorExit: Option<IndicatorExit>,
    trailingStop: Option<TrailingStop>,
    maxBarsInPosition: Option<int>
  )

  datatype Dsl = Dsl(entry: Entry, exit: Option<Exit>, riskPerTradePct: real, dca: Option<DcaConfig>)

  /** Stop level: the exit section's, else the entry's, else the risk per trade. */
  function StopDef(dsl: Dsl): ExitLevel {
    if dsl.exit.Some? then dsl.exit.value.stopLoss
    else dsl.entry.stopLoss.Else(ExitLevel(FixedPct, dsl.riskPerTradePct, None))
  }

  /** Target level: the exit section's, else the entry's, else twice the risk per trade. */
  function TargetDef(dsl: Dsl): ExitLevel {
    if dsl.exit.Some? then dsl.exit.value.takeProfit
    else dsl.entry.takeProfit.Else(ExitLevel(FixedPct, dsl.riskPerTradePct * 2.0, None))
  }

  function AtrAt(lib: Library, level: ExitLevel, candles: seq<Candle>, i: int): real {
    ValueAt(lib, QueryOf(AtrBlock, NO_PARAMS.(period := Some(level.atrPeriod.Else(14.0)))), candles, i).Else(0.0)
  }

  /** Stop price; every kind but the ATR one is a percentage of the entry. */
  function StopPrice(lib: Library, level: ExitLevel, entry: real, side: Side, candles: seq<Candle>, i: int): real {
    if level.kind == AtrMultiple then
      var distance := level.value * AtrAt(lib, level, candles, i);
      if side == Long then entry - distance else entry + distance
    else
      Against(entry, level.value, side)
  }

  function TargetPrice(lib: Library, level: ExitLevel, entry: real, side: Side, candles: seq<Candle>, i: int): real {
    if level.kind == AtrMultiple then
      var distance := level.value * AtrAt(lib, level, candles, i);
      if side == Long then entry + distance else entry - distance
    else
      InFavour(entry, level.value, side)
  }

  /** The candle field a side condition names; an unknown name reads as undefined. */
  function CandleField(c: Candle, source: Field): Option<real> {
    match source
    case OpenPrice => Some(c.open)
    case HighPrice => Some(c.high)
    case LowPrice => Some(c.low)
    case ClosePrice => Some(c.close)
    case VolumeField => Some(c.volume)
    case OpenTime => Some(c.openTime as real)
    case OtherField => None
  }

  /** Price against indicator: long if the long test holds, else short if the short test holds. */
  function SideByPrice(sc: SideCondition, price: Option<real>, val: Option<real>): Option<Side> {
    if price == None || val == None then None
    else if EvalOp(sc.longOp, price.value, val.value) then Some(Long)
    else if EvalOp(sc.shortOp, price.value, val.value) then Some(Short)
    else None
  }

  /** The parameters `resolveIndicatorRef` passes on. */
  function LiveParams(p: Params): Params {
    p.(stdDevMult := None, value := None)
  }

  /** The parameters the backtest's own resolver passes on. */
  function BacktestParams(p: Params): Params {
    NO_PARAMS.(length := p.length, period := p.period, atrPeriod := p.atrPeriod, multiplier := p.multiplier)
  }

  function LiveValue(lib: Library, ref: IndicatorRef, candles: seq<Candle>, i: int): Option<real> {
    ValueAt(lib, QueryOf(ref.block, LiveParams(ref.params)), candles, i)
  }

  function BacktestValue(lib: Library, ref: IndicatorRef, candles: seq<Candle>, i: int): Option<real> {
    ValueAt(lib, QueryOf(ref.block, BacktestParams(ref.params)), candles, i)
  }

  function SignOf(val: Option<real>): Option<Side> {
    if val == None then None
    else if val.value > 0.0 then Some(Long)
    else if val.value < 0.0 then Some(Short)
    else None
  }

  /** `determineSide`, used live and by the adaptive backtest. */
  function DetermineSide(lib: Library, entry: Entry, i: nat, candles: seq<Candle>): Option<Side>
    requires i < |candles|
  {
    if entry.side.Some? then entry.side
    else if entry.sideCondition.Some? then
      var sc := entry.sideCondition.value;
      var val := LiveValue(lib, sc.indicator, candles, i);
      if sc.mode == Some(IndicatorSign) then SignOf(val)
      else SideByPrice(sc, CandleField(candles[i], sc.source.Else(ClosePrice)), val)
    else None
  }

  /** The backtest's inlined copy: no sign mode, and the narrower resolver. */
  function BacktestSide(lib: Library, entry: Entry, i: nat, candles: seq<Candle>): Option<Side>
    requires i < |candles|
  {
    if entry.side.Some? then entry.side
    else if entry.sideCondition.Some? then
      var sc := entry.sideCondition.value;
      SideByPrice(sc, CandleField(candles[i], sc.source.Else(ClosePrice)), BacktestValue(lib, sc.indicator, candles, i))
    else None
  }

  predicate SignalFires(lib: Library, entry: Entry, i: nat, candles: seq<Candle>) {
    entry.signal.Some? && Fires(lib, entry.signal.value, i, candles, 0)
  }

  /** The proximity gate; missing data lets the signal through. */
  predicate ProximityPasses(lib: Library, pf: Option<ProximityFilter>, i: nat, candles: seq<Candle>)
    requires i < |candles|
  {
    if pf == None then true
    else
      var level := ValueAt(lib, QueryOf(pf.value.levelSource.Else(ProfilePoc), NO_PARAMS), candles, i);
      if level == None || level.value == 0.0 then true
      else
        var distance := Abs(candles[i].close - level.value);
        if pf.value.absolute then distance <= pf.value.threshold
        else distance / level.value * 100.0 <= pf.value.threshold
  }

  predicate AppliesToSide(ie: IndicatorExit, side: Side) {
    match ie.appliesTo.Else(Both)
    case Both => true
    case OnlyLong => side == Long
    case OnlyShort => side == Short
  }

  predicate ExitSignal(ie: IndicatorExit, side: Side, val: Option<real>) {
    AppliesToSide(ie, side) && val.Some? && EvalOp(ie.op, val.value, ie.value)
  }

  // ----- what a strategy reads -----

  function AtrQuery(level: ExitLevel): Query {
    QueryOf(AtrBlock, NO_PARAMS.(period := Some(level.atrPeriod.Else(14.0))))
  }

  function LevelReads(level: ExitLevel): set<Query> {
    if level.kind == AtrMultiple then {AtrQuery(level)} else {}
  }

  function ProximityQuery(pf: ProximityFilter): Query {
    QueryOf(pf.levelSource.Else(ProfilePoc), NO_PARAMS)
  }

  /** The signal, the proximity gate and the levels are read alike by the backtest and live. */
  ghost function SharedReads(dsl: Dsl): set<Query> {
    (if dsl.entry.signal.Some? then SignalReads(dsl.entry.signal.value) else {})
    + (if dsl.entry.proximityFilter.Some? then {ProximityQuery(dsl.entry.proximityFilter.value)} else {})
    + LevelReads(StopDef(dsl)) + LevelReads(TargetDef(dsl))
  }

  /** The side condition's reference, where a fixed side does not make it idle. */
  function SideRef(entry: Entry): Option<IndicatorRef> {
    if entry.side == None && entry.sideCondition.Some? then Some(entry.sideCondition.value.indicator) else None
  }

  function ExitRef(dsl: Dsl): Option<IndicatorRef> {
    if dsl.exit.Some? && dsl.exit.value.indicatorExit.Some? then Some(dsl.exit.value.indicatorExit.value.indicator)
    else None
  }

  function BacktestRead(ref: Option<IndicatorRef>): set<Query> {
    if ref == None then {} else {QueryOf(ref.value.block, BacktestParams(ref.value.params))}
  }

  function LiveRead(ref: Option<IndicatorRef>): set<Query> {
    if ref == None then {} else {QueryOf(ref.value.block, LiveParams(ref.value.params))}
  }

  ghost function BacktestReads(dsl: Dsl): set<Query> {
    SharedReads(dsl) + BacktestRead(SideRef(dsl.entry)) + BacktestRead(ExitRef(dsl))
  }

  /** The gates at a bar of a prefix are the same on the prefix, if what they read is. */
  lemma GatesAreCausal(lib: Library, dsl: Dsl, i: nat, candles: seq<Candle>, m: nat)
    requires i < m <= |candles| && AgreesOn(lib, SharedReads(dsl), candles, m)
    ensures SignalFires(lib, dsl.entry, i, candles[..m]) <==> SignalFires(lib, dsl.entry, i, candles)
    ensures ProximityPasses(lib, dsl.entry.proximityFilter, i, candles[..m])
       <==> ProximityPasses(lib, dsl.entry.proximityFilter, i, candles)
  {
    assert candles[..m][i] == candles[i];
    if dsl.entry.signal.Some? {
      assert SignalReads(dsl.entry.signal.value) <= SharedReads(dsl);
      SignalIsCausal(lib, dsl.entry.signal.value, i, candles, m, 0);
    }
    if dsl.entry.proximityFilter.Some? {
      assert ProximityQuery(dsl.entry.proximityFilter.value) in SharedReads(dsl);
    }
  }

  /** So are the two side choices, each in what its own resolver reads. */
  lemma SidesAreCausal(lib: Library, entry: Entry, i: nat, candles: seq<Candle>, m: nat)
    requires i < m <= |candles|
    ensures AgreesOn(lib, BacktestRead(SideRef(entry)), candles, m) ==>
      BacktestSide(lib, entry, i, candles[..m]) == BacktestSide(lib, entry, i, candles)
    ensures AgreesOn(lib, LiveRead(SideRef(entry)), candles, m) ==>
      DetermineSide(lib, entry, i, candles[..m]) == DetermineSide(lib, entry, i, candles)
  {
    assert candles[..m][i] == candles[i];
    if SideRef(entry).Some? {
      var ref := SideRef(entry).value;
      assert QueryOf(ref.block, BacktestParams(ref.params)) in BacktestRead(SideRef(entry));
      assert QueryOf(ref.block, LiveParams(ref.params)) in LiveRead(SideRef(entry));
    }
  }

  lemma LevelsAreCausal(lib: Library, level: ExitLevel, entry: real, side: Side, i: nat, candles: seq<Candle>, m: nat)
    requires i < m <= |candles| && AgreesOn(lib, LevelReads(level), candles, m)
    ensures StopPrice(lib, level, entry, side, candles[..m], i) == StopPrice(lib, level, entry, side, candles, i)
    ensures TargetPrice(lib, level, entry, side, candles[..m], i) == TargetPrice(lib, level, entry, side, candles, i)
  {
    if level.kind == AtrMultiple {
      assert AtrQuery(level) in LevelReads(level);
    }
  }

  lemma ExitValueIsCausal(lib: Library, ref: IndicatorRef, i: nat, candles: seq<Candle>, m: nat)
    requires i < m <= |candles| && AgreesOn(lib, BacktestRead(Some(ref)), candles, m)
    ensures BacktestValue(lib, ref, candles[..m], i) == BacktestValue(lib, ref, candles, i)
  {
    assert QueryOf(ref.block, BacktestParams(ref.params)) in BacktestRead(Some(ref));
  }

  lemma PartsAgree(lib: Library, dsl: Dsl, candles: seq<Candle>, m: nat)
    requires m <= |candles| && AgreesOn(lib, BacktestReads(dsl), candles, m)
    ensures AgreesOn(lib, SharedReads(dsl), candles, m)
    ensures AgreesOn(lib, LevelReads(StopDef(dsl)), candles, m) && AgreesOn(lib, LevelReads(TargetDef(dsl)), candles, m)
    ensures AgreesOn(lib, BacktestRead(SideRef(dsl.entry)), candles, m)
    ensures AgreesOn(lib, BacktestRead(ExitRef(dsl)), candles, m)
  {
    hide SharedReads;
    hide LevelReads;
    hide ValueAt;
    assert SharedReads(dsl) <= BacktestReads(dsl);
    LevelsShared(dsl);
  }

  lemma LevelsShared(dsl: Dsl)
    ensures LevelReads(StopDef(dsl)) + LevelReads(TargetDef(dsl)) <= SharedReads(dsl)
  {
  }

  /**
   * A level given as an absolute price is computed as a percentage all the same: it lands on the price it names
   * exactly for one value per entry price and side (for none at all on one side of an entry at 100).
   */
  lemma FixedPriceIsHitExactly(lib: Library, level: ExitLevel, entry: Price, side: Side, candles: seq<Candle>, i: int)
    requires level.kind == FixedPrice
    ensures StopPrice(lib, level, entry, side, candles, i) == level.value
      <==> level.value * (if side == Long then 100.0 + entry else 100.0 - entry) == 100.0 * entry
    ensures TargetPrice(lib, level, entry, side, candles, i) == level.value
      <==> level.value * (if side == Short then 100.0 + entry else 100.0 - entry) == 100.0 * entry
  {
    PercentHits(entry, level.value, Against(entry, level.value, Long), InFavour(entry, level.value, Long));
  }

  /** When a price moved by `v` percent becomes `v` itself. */
  lemma PercentHits(entry: Price, v: real, lower: real, upper: real)
    requires lower == entry * (1.0 - v / 100.0) && upper == entry * (1.0 + v / 100.0)
    ensures lower == v <==> v * (100.0 + entry) == 100.0 * entry
    ensures upper == v <==> v * (100.0 - entry) == 100.0 * entry
  {
    var w := v / 100.0;
    assert v == 100.0 * w;
    assert lower == entry - entry * w && upper == entry + entry * w;
    assert v * (100.0 + entry) == 100.0 * v + 100.0 * (entry * w);
    assert v * (100.0 - entry) == 100.0 * v - 100.0 * (entry * w);
  }

  /** A stop meant at 95 for a long entered at 100 sits at 5. */
  lemma FixedPriceExample(lib: Library, candles: seq<Candle>, i: int)
    ensures StopPrice(lib, ExitLevel(FixedPrice, 95.0, None), 100.0, Long, candles, i) == 5.0
  {
  }
}
