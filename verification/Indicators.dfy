/**
 * Which indicator computation a block type and its parameters denote (`getIndicatorValues`), and what it
 * means for the computations to be causal.
 *
 * The EMA and the volume series are computed here; the other computations are a parameter, the library.
 */
module Indicators {
  import opened Wrappers
  import opened Market
  import opened Ema

  /** The optional numeric parameters an indicator reference may carry. */
  datatype Params = Params(
    length: Option<real>,
    period: Option<real>,
    atrPeriod: Option<real>,
    multiplier: Option<real>,
    fastPeriod: Option<real>,
    slowPeriod: Option<real>,
    signalPeriod: Option<real>,
    stdDevMult: Option<real>,
    bins: Option<real>,
    value: Option<real>
  )

  const NO_PARAMS := Params(None, None, None, None, None, None, None, None, None, None)

  /** One computation over the candles, with its parameters resolved. */
  datatype Calc =
    | Sma(length: real)
    | Ema(length: real)
    | Rsi(length: real)
    | Atr(period: real)
    | Adx(period: real)
    | SuperTrend(atrPeriod: real, multiplier: real)
    | Vwap
    | Bollinger(period: real, stdDevMult: real)
    | Macd(fast: real, slow: real, signal: real)
    | Volume
    | FairValueGap(minGapRatio: real)
    | LiquiditySweep(swingLen: real, maxAge: real)
    | OrderBlock(atrPeriod: real, minImpulse: real, maxLookback: real)
    | StructureShift(swingLen: real)
    | VolumeProfile(period: real, bins: real)

  /** A computation yields up to three lines, such as the three Bollinger bands. */
  datatype Line = Main | Second | Third

  datatype Output = Output(main: Series, second: Series, third: Series) {
    function Get(line: Line): Series {
      match line
      case Main => main
      case Second => second
      case Third => third
    }
  }

  datatype Query = Computed(comp: Calc, line: Line) | Constant(value: real) | Unknown

  type Library = (Calc, seq<Candle>) -> Output

  /** The indicator kinds `getIndicatorValues` tells apart, aliases resolved. */
  datatype Block =
    | SmaBlock
    | EmaBlock
    | RsiBlock
    | AtrBlock
    | AdxBlock
    | SuperTrendBlock
    | VwapBlock
    | BollingerLower
    | BollingerUpper
    | BollingerMiddle
    | MacdHistogram
    | MacdSignal
    | VolumeBlock
    | ConstantBlock
    | GapBlock
    | SweepBlock
    | OrderBlockBlock
    | ShiftBlock
    | ProfilePoc
    | ProfileVah
    | ProfileVal
    | OtherBlock

  function LowerChar(c: char): char {
    if 'A' <= c <= 'Z' then c - 'A' + 'a' else c
  }

  function Lower(s: string): string {
    seq(|s|, i requires 0 <= i < |s| => LowerChar(s[i]))
  }

  /** Block type names are matched without regard to case; other names denote no indicator. */
  function BlockOf(name: string): Block {
    BlockNamed(Lower(name))
  }

  function BlockNamed(t: string): Block {
    if t == "sma" then SmaBlock
    else if t == "ema" then EmaBlock
    else if t == "rsi" then RsiBlock
    else if t == "atr" then AtrBlock
    else if t == "adx" then AdxBlock
    else if t == "supertrend" then SuperTrendBlock
    else if t == "vwap" then VwapBlock
    else if t == "bollinger_lower" || t == "bb_lower" then BollingerLower
    else if t == "bollinger_upper" || t == "bb_upper" then BollingerUpper
    else if t == "bollinger_middle" || t == "bb_middle" || t == "bollinger" then BollingerMiddle
    else if t == "macd_signal" then MacdSignal
    else if t == "macd" || t == "macd_histogram" then MacdHistogram
    else if t == "volume" then VolumeBlock
    else if t == "constant" then ConstantBlock
    else if t == "fair_value_gap" then GapBlock
    else if t == "liquidity_sweep" then SweepBlock
    else if t == "order_block" then OrderBlockBlock
    else if t == "market_structure_shift" then ShiftBlock
    else if t == "volume_profile" || t == "volume_profile_poc" then ProfilePoc
    else if t == "volume_profile_vah" then ProfileVah
    else if t == "volume_profile_val" then ProfileVal
    else OtherBlock
  }

  /** The computation a block denotes; parameters left out take the source's defaults. */
  function QueryOf(block: Block, p: Params): Query {
    match block
    case SmaBlock => Computed(Sma(p.length.Else(14.0)), Main)
    case EmaBlock => Computed(Ema(p.length.Else(14.0)), Main)
    case RsiBlock => Computed(Rsi(p.length.Else(14.0)), Main)
    case AtrBlock => Computed(Atr(p.period.Else(p.length.Else(14.0))), Main)
    case AdxBlock => Computed(Adx(p.period.Else(p.length.Else(14.0))), Main)
    case SuperTrendBlock => Computed(SuperTrend(p.atrPeriod.Else(10.0), p.multiplier.Else(3.0)), Main)
    case VwapBlock => Computed(Vwap, Main)
    case BollingerLower => Computed(BollingerOf(p), Main)
    case BollingerUpper => Computed(BollingerOf(p), Second)
    case BollingerMiddle => Computed(BollingerOf(p), Third)
    case MacdHistogram => Computed(MacdOf(p), Main)
    case MacdSignal => Computed(MacdOf(p), Second)
    case VolumeBlock => Computed(Volume, Main)
    case ConstantBlock => Constant(p.length.Else(p.value.Else(0.0)))
    case GapBlock => Computed(FairValueGap(p.multiplier.Else(0.0)), Main)
    case SweepBlock => Computed(LiquiditySweep(p.length.Else(3.0), p.period.Else(50.0)), Main)
    case OrderBlockBlock =>
      Computed(OrderBlock(p.period.Else(14.0), p.multiplier.Else(1.5), p.length.Else(5.0)), Main)
    case ShiftBlock => Computed(StructureShift(p.length.Else(3.0)), Main)
    case ProfilePoc => Computed(ProfileOf(p), Main)
    case ProfileVah => Computed(ProfileOf(p), Second)
    case ProfileVal => Computed(ProfileOf(p), Third)
    case OtherBlock => Unknown
  }

  function BollingerOf(p: Params): Calc {
    Bollinger(p.period.Else(p.length.Else(20.0)), p.stdDevMult.Else(p.multiplier.Else(2.0)))
  }

  function MacdOf(p: Params): Calc {
    Macd(p.fastPeriod.Else(12.0), p.slowPeriod.Else(26.0), p.signalPeriod.Else(9.0))
  }

  function ProfileOf(p: Params): Calc {
    VolumeProfile(p.period.Else(20.0), p.bins.Else(24.0))
  }

  predicate PositiveInteger(x: real) {
    x >= 1.0 && x.Floor as real == x
  }

  function VolumeSeries(candles: seq<Candle>): Series {
    seq(|candles|, i requires 0 <= i < |candles| => Some(candles[i].volume))
  }

  /** The direct, uncached result of a computation. */
  function Compute(lib: Library, comp: Calc, candles: seq<Candle>): Output {
    if comp.Ema? && PositiveInteger(comp.length) then Output(EmaSeries(candles, comp.length.Floor), [], [])
    else if comp.Volume? then Output(VolumeSeries(candles), [], [])
    else lib(comp, candles)
  }

  function ConstantSeries(v: Option<real>, n: nat): Series {
    seq(n, _ => v)
  }

  function Answer(lib: Library, q: Query, candles: seq<Candle>): Series {
    match q
    case Computed(comp, line) => Compute(lib, comp, candles).Get(line)
    case Constant(v) => ConstantSeries(Some(v), |candles|)
    case Unknown => ConstantSeries(None, |candles|)
  }

  function At(s: Series, i: int): Option<real> {
    if 0 <= i < |s| then s[i] else None
  }

  /** The indicator's value at bar `i`. */
  function ValueAt(lib: Library, q: Query, candles: seq<Candle>, i: int): Option<real> {
    At(Answer(lib, q, candles), i)
  }

  ghost predicate CausalAt(lib: Library, comp: Calc, line: Line, candles: seq<Candle>, m: nat, i: nat)
    requires m <= |candles|
  {
    At(lib(comp, candles[..m]).Get(line), i) == At(lib(comp, candles).Get(line), i)
  }

  /** The computation's value at bar `i` depends only on the candles up to bar `i`. */
  ghost predicate CausalCalc(lib: Library, comp: Calc) {
    forall line, candles, m: nat, i: nat :: i < m <= |candles| ==> CausalAt(lib, comp, line, candles, m, i)
  }

  /** A library all of whose computations are causal. */
  ghost predicate Causal(lib: Library) {
    forall comp :: CausalCalc(lib, comp)
  }

  /** One of the four pattern series. */
  predicate IsPattern(comp: Calc) {
    comp.FairValueGap? || comp.LiquiditySweep? || comp.OrderBlock? || comp.StructureShift?
  }

  /** Done by one of the loops of this model. */
  predicate Concrete(comp: Calc) {
    comp.Volume? || (comp.Ema? && PositiveInteger(comp.length))
  }

  /** Where the query goes to the library, the library answers it causally. */
  ghost predicate CausalQuery(lib: Library, q: Query) {
    q.Computed? && !Concrete(q.comp) ==> CausalCalc(lib, q.comp)
  }

  /** The library is causal in what is read of it. */
  ghost predicate CausalOn(lib: Library, queries: set<Query>) {
    forall q :: q in queries ==> CausalQuery(lib, q)
  }

  /** Every value read at a bar of the first `m` candles is the same on those as on all of them. */
  ghost predicate AgreesOn(lib: Library, queries: set<Query>, candles: seq<Candle>, m: nat)
    requires m <= |candles|
  {
    forall q, i: nat :: q in queries && i < m ==> ValueAt(lib, q, candles[..m], i) == ValueAt(lib, q, candles, i)
  }

  /** What is answered causally agrees on every prefix. */
  lemma CausalAgrees(lib: Library, queries: set<Query>, candles: seq<Candle>, m: nat)
    requires CausalOn(lib, queries) && m <= |candles|
    ensures AgreesOn(lib, queries, candles, m)
  {
    forall q, i: nat | q in queries && i < m
      ensures ValueAt(lib, q, candles[..m], i) == ValueAt(lib, q, candles, i)
    {
      ValueIsCausal(lib, q, candles, m, i);
    }
  }

  /** A query answered causally has the same value at a bar on every extension of the candles up to it. */
  lemma ValueIsCausal(lib: Library, q: Query, candles: seq<Candle>, m: nat, i: nat)
    requires CausalQuery(lib, q) && i < m <= |candles|
    ensures ValueAt(lib, q, candles[..m], i) == ValueAt(lib, q, candles, i)
  {
    if q.Computed? {
      if q.comp.Ema? && PositiveInteger(q.comp.length) {
        var length: nat := q.comp.length.Floor;
        if length <= i + 1 {
          EmaIsCausal(candles, length, m, i);
        }
      } else if q.comp.Volume? {
      } else {
        assert CausalAt(lib, q.comp, q.line, candles, m, i);
      }
    }
  }
}
