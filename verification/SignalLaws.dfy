/** Laws of the signals, in terms of the values they read. */
module SignalLaws {
  import opened Wrappers
  import opened Market
  import opened Indicators
  import opened Signals
  import opened Scenarios

  // ----- crossings -----

  function Cross(kind: Kind, fast: SignalRef, slow: SignalRef): Signal {
    Signal(kind, None, Some(fast), Some(slow), None, None, [], None)
  }

  /** Number of bars after `a`, up to and including `b`, on which the signal fires. */
  function Fired(lib: Library, s: Signal, candles: seq<Candle>, a: int, b: int): nat
    decreases b - a
  {
    if b <= a then 0 else Fired(lib, s, candles, a, b - 1) + if Fires(lib, s, b, candles, 0) then 1 else 0
  }

  /** Both series have a value at the bar. */
  predicate Defined(lib: Library, fast: SignalRef, slow: SignalRef, candles: seq<Candle>, i: int) {
    RefAt(lib, fast, candles, i).Some? && RefAt(lib, slow, candles, i).Some?
  }

  /** The fast series lies above the slow one at the bar. */
  predicate Above(lib: Library, fast: SignalRef, slow: SignalRef, candles: seq<Candle>, i: int)
    requires Defined(lib, fast, slow, candles, i)
  {
    RefAt(lib, fast, candles, i).value > RefAt(lib, slow, candles, i).value
  }

  /** A crossover is a bar above after one that was not, a crossunder a bar below after one that was not. */
  lemma CrossIsChangeOfSide(lib: Library, fast: SignalRef, slow: SignalRef, candles: seq<Candle>, i: int)
    requires i >= 1 && Defined(lib, fast, slow, candles, i - 1) && Defined(lib, fast, slow, candles, i)
    ensures Fires(lib, Cross(Crossover, fast, slow), i, candles, 0)
      <==> Above(lib, fast, slow, candles, i) && !Above(lib, fast, slow, candles, i - 1)
    ensures Fires(lib, Cross(Crossunder, fast, slow), i, candles, 0)
      <==> Above(lib, slow, fast, candles, i) && !Above(lib, slow, fast, candles, i - 1)
  {
    hide RefAt;
  }

  /**
   * Over any stretch on which the two series are defined and never equal, crossovers outnumber crossunders by
   * what the fast series gained: one if it ends above and began below, minus one the other way round, else none.
   */
  lemma {:induction false} CrossingsBalance(lib: Library, fast: SignalRef, slow: SignalRef, candles: seq<Candle>,
                                            a: int, b: int)
    requires 0 <= a <= b
    requires forall i :: a <= i <= b ==> Defined(lib, fast, slow, candles, i)
    requires forall i :: a <= i <= b ==> RefAt(lib, fast, candles, i) != RefAt(lib, slow, candles, i)
    ensures Fired(lib, Cross(Crossover, fast, slow), candles, a, b)
            - Fired(lib, Cross(Crossunder, fast, slow), candles, a, b)
         == (if Above(lib, fast, slow, candles, b) then 1 else 0)
            - (if Above(lib, fast, slow, candles, a) then 1 else 0)
    decreases b - a
  {
    hide RefAt;
    hide Fires;
    if a < b {
      CrossingsBalance(lib, fast, slow, candles, a, b - 1);
      CrossIsChangeOfSide(lib, fast, slow, candles, b);
      assert Defined(lib, fast, slow, candles, b) && Defined(lib, fast, slow, candles, b - 1);
    }
  }

  /** So between two crossovers there is always a crossunder. */
  lemma CrossoversAlternate(lib: Library, fast: SignalRef, slow: SignalRef, candles: seq<Candle>, a: int, b: int)
    requires 1 <= a < b
    requires forall i :: a - 1 <= i <= b ==> Defined(lib, fast, slow, candles, i)
    requires forall i :: a - 1 <= i <= b ==> RefAt(lib, fast, candles, i) != RefAt(lib, slow, candles, i)
    requires Fires(lib, Cross(Crossover, fast, slow), a, candles, 0)
    requires Fires(lib, Cross(Crossover, fast, slow), b, candles, 0)
    ensures Fired(lib, Cross(Crossunder, fast, slow), candles, a, b) > 0
  {
    hide RefAt;
    hide Fires;
    assert Defined(lib, fast, slow, candles, a) && Defined(lib, fast, slow, candles, a - 1);
    CrossIsChangeOfSide(lib, fast, slow, candles, a);
    assert Defined(lib, fast, slow, candles, b);
    CrossIsChangeOfSide(lib, fast, slow, candles, b);
    CrossingsBalance(lib, fast, slow, candles, a, b);
  }

  // ----- comparisons and their compositions -----

  function Comparison(op: Op, left: SignalRef, right: SignalRef): Signal {
    Signal(Compare, Some(op), None, None, Some(left), Some(right), [], None)
  }

  /** Where both sides have a value, exactly one of below, equal and above fires; the others are two of these each. */
  lemma ComparisonsPartition(lib: Library, left: SignalRef, right: SignalRef, candles: seq<Candle>, i: int)
    requires Defined(lib, left, right, candles, i)
    ensures
      var l, r := RefAt(lib, left, candles, i).value, RefAt(lib, right, candles, i).value;
      && (Fires(lib, Comparison(Gt, left, right), i, candles, 0) <==> l > r)
      && (Fires(lib, Comparison(Lt, left, right), i, candles, 0) <==> r > l)
      && (Fires(lib, Comparison(Eq, left, right), i, candles, 0) <==> l == r)
      && (Fires(lib, Comparison(Gte, left, right), i, candles, 0) <==> !(r > l))
      && (Fires(lib, Comparison(Lte, left, right), i, candles, 0) <==> !(l > r))
      && !Fires(lib, Comparison(OtherOp, left, right), i, candles, 0)
  {
    hide RefAt;
  }

  /** Nothing fires on a value that is not there. */
  lemma UndefinedNeverFires(lib: Library, op: Op, left: SignalRef, right: SignalRef, candles: seq<Candle>, i: int)
    requires !Defined(lib, left, right, candles, i)
    ensures !Fires(lib, Comparison(op, left, right), i, candles, 0)
  {
    hide RefAt;
  }

  function Within(x: SignalRef, lo: real, hi: real): Signal {
    Compose(And, None, [Comparison(Gte, x, ConstantRef(lo)), Comparison(Lte, x, ConstantRef(hi))])
  }

  function Outside(x: SignalRef, lo: real, hi: real): Signal {
    Compose(Or, None, [Comparison(Lt, x, ConstantRef(lo)), Comparison(Gt, x, ConstantRef(hi))])
  }

  /** A band as a conjunction fires exactly inside it, as a disjunction exactly outside, wherever there is a value. */
  lemma BandsPartition(lib: Library, x: SignalRef, lo: real, hi: real, candles: seq<Candle>, i: nat)
    requires i < |candles| && RefAt(lib, x, candles, i).Some?
    ensures
      var v := RefAt(lib, x, candles, i).value;
      && (Fires(lib, Within(x, lo, hi), i, candles, 0) <==> lo <= v <= hi)
      && (Fires(lib, Outside(x, lo, hi), i, candles, 0) <==> !(lo <= v <= hi))
  {
    ConstantReads(lib, lo, candles, i);
    ConstantReads(lib, hi, candles, i);
    hide RefAt;
    var within, outside := Within(x, lo, hi), Outside(x, lo, hi);
    assert within.conditions[0] == Comparison(Gte, x, ConstantRef(lo));
    assert within.conditions[1] == Comparison(Lte, x, ConstantRef(hi));
    assert outside.conditions[0] == Comparison(Lt, x, ConstantRef(lo));
    assert outside.conditions[1] == Comparison(Gt, x, ConstantRef(hi));
    assert forall k | 0 <= k < 2 :: (Fires(lib, within.conditions[k], i, candles, 1)
      <==> if k == 0 then RefAt(lib, x, candles, i).value >= lo else RefAt(lib, x, candles, i).value <= hi);
    assert forall k | 0 <= k < 2 :: (Fires(lib, outside.conditions[k], i, candles, 1)
      <==> if k == 0 then RefAt(lib, x, candles, i).value < lo else RefAt(lib, x, candles, i).value > hi);
  }

  lemma ConstantReads(lib: Library, v: real, candles: seq<Candle>, i: nat)
    requires i < |candles|
    ensures RefAt(lib, ConstantRef(v), candles, i) == Some(v)
  {
  }

  /** A confirmed comparison fires exactly where it has held on as many bars in a row, this one the last. */
  lemma ConfirmedFor(lib: Library, n: int, left: SignalRef, right: SignalRef, candles: seq<Candle>, i: int)
    requires n >= 1
    ensures Fires(lib, Confirm(n, Comparison(Gt, left, right)), i, candles, 0)
      <==> i >= n - 1 && forall j :: i - n < j <= i ==> IsAbove(lib, left, right, candles, j)
  {
    hide RefAt;
    var s := Comparison(Gt, left, right);
    assert Confirm(n, s).conditions[0] == s;
    assert forall j :: Fires(lib, s, j, candles, 1) <==> IsAbove(lib, left, right, candles, j);
  }

  predicate IsAbove(lib: Library, left: SignalRef, right: SignalRef, candles: seq<Candle>, j: int) {
    Defined(lib, left, right, candles, j) && Above(lib, left, right, candles, j)
  }

  /** A composition of nothing never fires. */
  lemma NothingNeverFires(lib: Library, kind: Kind, bars: Option<int>, candles: seq<Candle>, i: int, depth: nat)
    requires kind == And || kind == Or || kind == ConfirmBars
    ensures !Fires(lib, Compose(kind, bars, []), i, candles, depth)
  {
  }

  /** A comparison without an operator asks for above, a confirmation without a number for three bars. */
  lemma SignalDefaults(lib: Library, left: SignalRef, right: SignalRef, s: Signal, candles: seq<Candle>, i: int,
                       depth: nat)
    ensures Fires(lib, Comparison(Gt, left, right).(op := None), i, candles, depth)
      <==> Fires(lib, Comparison(Gt, left, right), i, candles, depth)
    ensures Fires(lib, Compose(ConfirmBars, None, [s]), i, candles, depth)
      <==> Fires(lib, Confirm(3, s), i, candles, depth)
  {
    hide RefAt;
    assert Compose(ConfirmBars, None, [s]).conditions[0] == s && Confirm(3, s).conditions[0] == s;
  }

  // ----- names -----

  /** What an operator's name makes of two numbers, for all names. */
  predicate NamedTest(name: string, a: real, b: real) {
    || (name in {"gt", ">"} && a > b)
    || (name in {"gte", ">="} && a >= b)
    || (name in {"lt", "<"} && a < b)
    || (name in {"lte", "<="} && a <= b)
    || (name in {"eq", "=="} && a == b)
  }

  lemma OperatorNames(name: string, a: real, b: real)
    ensures EvalOp(OpOf(name), a, b) <==> NamedTest(name, a, b)
  {
  }

  /** The names a signal type goes by. */
  lemma KindNames(name: string)
    ensures KindOf(name) == And <==> name == "and"
    ensures KindOf(name) == Or <==> name == "or"
    ensures KindOf(name) == ConfirmBars <==> name == "confirm_n_bars"
    ensures KindOf(name) == Crossover <==> name == "crossover"
    ensures KindOf(name) == Crossunder <==> name == "crossunder"
    ensures KindOf(name) == Compare <==> name == "compare"
  {
  }

  /** The names an indicator goes by, in lower case. */
  function NamesOf(block: Block): set<string> {
    match block
    case SmaBlock => {"sma"}
    case EmaBlock => {"ema"}
    case RsiBlock => {"rsi"}
    case AtrBlock => {"atr"}
    case AdxBlock => {"adx"}
    case SuperTrendBlock => {"supertrend"}
    case VwapBlock => {"vwap"}
    case BollingerLower => {"bollinger_lower", "bb_lower"}
    case BollingerUpper => {"bollinger_upper", "bb_upper"}
    case BollingerMiddle => {"bollinger_middle", "bb_middle", "bollinger"}
    case MacdHistogram => {"macd_histogram", "macd"}
    case MacdSignal => {"macd_signal"}
    case VolumeBlock => {"volume"}
    case ConstantBlock => {"constant"}
    case GapBlock => {"fair_value_gap"}
    case SweepBlock => {"liquidity_sweep"}
    case OrderBlockBlock => {"order_block"}
    case ShiftBlock => {"market_structure_shift"}
    case ProfilePoc => {"volume_profile_poc", "volume_profile"}
    case ProfileVah => {"volume_profile_vah"}
    case ProfileVal => {"volume_profile_val"}
    case OtherBlock => {}
  }

  /** In whatever case it is written, a name denotes the one indicator that goes by it, or none. */
  lemma BlockNames(name: string, block: Block)
    requires block != OtherBlock
    ensures BlockOf(name) == block <==> Lower(name) in NamesOf(block)
  {
    var t := Lower(name);
    if BlockOf(name) == block {
      DenotedByName(t);
      DenotedByLaterName(t);
    } else if t in NamesOf(block) {
      NameDenotes(t, block);
    }
    hide BlockNamed;
    hide NamesOf;
  }

  lemma DenotedByName(t: string)
    ensures BlockNamed(t) in {SmaBlock, EmaBlock, RsiBlock, AtrBlock, AdxBlock, SuperTrendBlock, VwapBlock,
                              BollingerLower, BollingerUpper, BollingerMiddle, MacdHistogram, MacdSignal} ==>
      t in NamesOf(BlockNamed(t))
  {
  }

  lemma DenotedByLaterName(t: string)
    ensures BlockNamed(t) in {VolumeBlock, ConstantBlock, GapBlock, SweepBlock, OrderBlockBlock, ShiftBlock,
                              ProfilePoc, ProfileVah, ProfileVal} ==>
      t in NamesOf(BlockNamed(t))
  {
  }

  lemma NameDenotes(t: string, block: Block)
    requires t in NamesOf(block)
    ensures BlockNamed(t) == block
  {
    match block
    case SmaBlock => assert t == "sma";
    case EmaBlock => assert t == "ema" && t[0] == 'e';
    case RsiBlock => assert t == "rsi" && t[0] == 'r';
    case AtrBlock => assert t == "atr" && t[0] == 'a' && t[1] == 't';
    case AdxBlock => assert t == "adx" && t[0] == 'a' && t[1] == 'd';
    case SuperTrendBlock => PlainNames(t);
    case VwapBlock => PlainNames(t);
    case VolumeBlock => PlainNames(t);
    case ConstantBlock => PlainNames(t);
    case BollingerLower => OuterBandNames(t);
    case BollingerUpper => OuterBandNames(t);
    case BollingerMiddle => MiddleBandNames(t);
    case MacdSignal => MacdNames(t);
    case MacdHistogram => MacdNames(t);
    case GapBlock => GapNames(t);
    case SweepBlock => GapNames(t);
    case OrderBlockBlock => BlockPatternNames(t);
    case ShiftBlock => BlockPatternNames(t);
    case ProfilePoc => ProfileNames(t);
    case ProfileVah => ProfileEdgeNames(t);
    case ProfileVal => ProfileEdgeNames(t);
  }

  lemma PlainNames(t: string)
    ensures t in NamesOf(SuperTrendBlock) ==> BlockNamed(t) == SuperTrendBlock
    ensures t in NamesOf(VwapBlock) ==> BlockNamed(t) == VwapBlock
    ensures t in NamesOf(VolumeBlock) ==> BlockNamed(t) == VolumeBlock
    ensures t in NamesOf(ConstantBlock) ==> BlockNamed(t) == ConstantBlock
  {
    if t == "supertrend" { assert |t| == 10; }
    if t == "vwap" { assert |t| == 4; }
    if t == "volume" { assert |t| == 6; }
    if t == "constant" { assert |t| == 8 && t[0] == 'c'; }
  }

  lemma OuterBandNames(t: string)
    ensures t in NamesOf(BollingerLower) ==> BlockNamed(t) == BollingerLower
    ensures t in NamesOf(BollingerUpper) ==> BlockNamed(t) == BollingerUpper
  {
    if t == "bollinger_lower" { assert |t| == 15; }
    if t == "bb_lower" { assert |t| == 8; }
    if t == "bollinger_upper" { assert |t| == 15 && t[10] == 'u'; }
    if t == "bb_upper" { assert |t| == 8 && t[3] == 'u'; }
  }

  lemma MiddleBandNames(t: string)
    ensures t in NamesOf(BollingerMiddle) ==> BlockNamed(t) == BollingerMiddle
  {
    if t == "bollinger_middle" { assert |t| == 16; }
    if t == "bb_middle" { assert |t| == 9; }
    if t == "bollinger" { assert |t| == 9; }
  }

  lemma MacdNames(t: string)
    ensures t in NamesOf(MacdSignal) ==> BlockNamed(t) == MacdSignal
    ensures t in NamesOf(MacdHistogram) ==> BlockNamed(t) == MacdHistogram
  {
    if t == "macd_signal" { assert |t| == 11; }
    if t == "macd" { assert |t| == 4 && t[0] == 'm'; }
    if t == "macd_histogram" { assert |t| == 14; }
  }

  lemma GapNames(t: string)
    ensures t in NamesOf(GapBlock) ==> BlockNamed(t) == GapBlock
    ensures t in NamesOf(SweepBlock) ==> BlockNamed(t) == SweepBlock
  {
    if t == "fair_value_gap" { assert |t| == 14 && t[0] == 'f'; }
    if t == "liquidity_sweep" { assert |t| == 15 && t[0] == 'l'; }
  }

  lemma BlockPatternNames(t: string)
    ensures t in NamesOf(OrderBlockBlock) ==> BlockNamed(t) == OrderBlockBlock
    ensures t in NamesOf(ShiftBlock) ==> BlockNamed(t) == ShiftBlock
  {
    if t == "order_block" { assert |t| == 11 && t[0] == 'o'; }
    if t == "market_structure_shift" { assert |t| == 22; }
  }

  lemma ProfileNames(t: string)
    ensures t in NamesOf(ProfilePoc) ==> BlockNamed(t) == ProfilePoc
  {
    if t == "volume_profile" { assert |t| == 14 && t[0] == 'v'; }
    if t == "volume_profile_poc" { assert |t| == 18; }
  }

  lemma ProfileEdgeNames(t: string)
    ensures t in NamesOf(ProfileVah) ==> BlockNamed(t) == ProfileVah
    ensures t in NamesOf(ProfileVal) ==> BlockNamed(t) == ProfileVal
  {
    if t == "volume_profile_vah" { assert |t| == 18 && t[15] == 'v'; }
    if t == "volume_profile_val" { assert |t| == 18 && t[15] == 'v' && t[17] == 'l'; }
  }

  /** Writing a name in capitals changes nothing. */
  lemma CaseIsIgnored(name: string, other: string)
    requires |name| == |other|
    requires forall k :: 0 <= k < |name| ==> other[k] == name[k] || ('a' <= name[k] <= 'z' && other[k] == name[k] - ' ')
    ensures BlockOf(other) == BlockOf(name)
  {
    assert Lower(other) == Lower(name) by {
      assert forall k :: 0 <= k < |name| ==> LowerChar(other[k]) == LowerChar(name[k]);
    }
    hide BlockNamed;
  }

  // ----- lines and parameters -----

  /** Each line of a computation is read by the indicators named after it. */
  lemma LinesAreRead(lib: Library, p: Params, candles: seq<Candle>)
    ensures
      var bands := lib(QueryOf(BollingerMiddle, p).comp, candles);
      && Answer(lib, QueryOf(BollingerLower, p), candles) == bands.main
      && Answer(lib, QueryOf(BollingerUpper, p), candles) == bands.second
      && Answer(lib, QueryOf(BollingerMiddle, p), candles) == bands.third
    ensures
      var macd := lib(QueryOf(MacdSignal, p).comp, candles);
      && Answer(lib, QueryOf(MacdHistogram, p), candles) == macd.main
      && Answer(lib, QueryOf(MacdSignal, p), candles) == macd.second
    ensures
      var profile := lib(QueryOf(ProfilePoc, p).comp, candles);
      && Answer(lib, QueryOf(ProfilePoc, p), candles) == profile.main
      && Answer(lib, QueryOf(ProfileVah, p), candles) == profile.second
      && Answer(lib, QueryOf(ProfileVal, p), candles) == profile.third
  {
  }

  /** The computation a reference asks for; the volume stands in where it asks for none. */
  function Asked(block: Block, p: Params): Calc {
    var q := QueryOf(block, p);
    if q.Computed? then q.comp else Volume
  }

  /** A given number reaches the computation under its own name. */
  lemma NumbersReachTheirNames(p: Params, x: real, y: real, z: real)
    ensures p.atrPeriod == Some(x) ==> Asked(SuperTrendBlock, p).atrPeriod == x
    ensures p.multiplier == Some(x) ==> Asked(SuperTrendBlock, p).multiplier == x
    ensures p.period == Some(x) ==>
      && Asked(BollingerLower, p).period == x && Asked(ProfilePoc, p).period == x
      && Asked(AtrBlock, p).period == x && Asked(AdxBlock, p).period == x
      && Asked(SweepBlock, p).maxAge == x && Asked(OrderBlockBlock, p).atrPeriod == x
    ensures p.stdDevMult == Some(x) ==> Asked(BollingerLower, p).stdDevMult == x
    ensures p.bins == Some(x) ==> Asked(ProfilePoc, p).bins == x
    ensures p.fastPeriod == Some(x) && p.slowPeriod == Some(y) && p.signalPeriod == Some(z) ==>
      Asked(MacdHistogram, p).fast == x && Asked(MacdHistogram, p).slow == y && Asked(MacdHistogram, p).signal == z
    ensures p.length == Some(x) ==>
      && Asked(SmaBlock, p).length == x && Asked(EmaBlock, p).length == x && Asked(RsiBlock, p).length == x
      && Asked(SweepBlock, p).swingLen == x && Asked(ShiftBlock, p).swingLen == x
      && Asked(OrderBlockBlock, p).maxLookback == x
  {
  }

  function First(given: Option<real>, fallback: Option<real>, default: real): Option<real> {
    if given.Some? then given else if fallback.Some? then fallback else Some(default)
  }

  /** The reference with every number its block reads spelled out. */
  function Explicit(block: Block, p: Params): Params {
    match block
    case SmaBlock => NO_PARAMS.(length := First(p.length, None, 14.0))
    case EmaBlock => NO_PARAMS.(length := First(p.length, None, 14.0))
    case RsiBlock => NO_PARAMS.(length := First(p.length, None, 14.0))
    case AtrBlock => NO_PARAMS.(period := First(p.period, p.length, 14.0))
    case AdxBlock => NO_PARAMS.(period := First(p.period, p.length, 14.0))
    case SuperTrendBlock =>
      NO_PARAMS.(atrPeriod := First(p.atrPeriod, None, 10.0), multiplier := First(p.multiplier, None, 3.0))
    case VwapBlock => NO_PARAMS
    case BollingerLower => Bands(p)
    case BollingerUpper => Bands(p)
    case BollingerMiddle => Bands(p)
    case MacdHistogram => Convergence(p)
    case MacdSignal => Convergence(p)
    case VolumeBlock => NO_PARAMS
    case ConstantBlock => NO_PARAMS.(length := First(p.length, p.value, 0.0))
    case GapBlock => NO_PARAMS.(multiplier := First(p.multiplier, None, 0.0))
    case SweepBlock => NO_PARAMS.(length := First(p.length, None, 3.0), period := First(p.period, None, 50.0))
    case OrderBlockBlock =>
      NO_PARAMS.(period := First(p.period, None, 14.0), multiplier := First(p.multiplier, None, 1.5),
                 length := First(p.length, None, 5.0))
    case ShiftBlock => NO_PARAMS.(length := First(p.length, None, 3.0))
    case ProfilePoc => Profile(p)
    case ProfileVah => Profile(p)
    case ProfileVal => Profile(p)
    case OtherBlock => NO_PARAMS
  }

  function Bands(p: Params): Params {
    NO_PARAMS.(period := First(p.period, p.length, 20.0), stdDevMult := First(p.stdDevMult, p.multiplier, 2.0))
  }

  function Convergence(p: Params): Params {
    NO_PARAMS.(fastPeriod := First(p.fastPeriod, None, 12.0), slowPeriod := First(p.slowPeriod, None, 26.0),
               signalPeriod := First(p.signalPeriod, None, 9.0))
  }

  function Profile(p: Params): Params {
    NO_PARAMS.(period := First(p.period, None, 20.0), bins := First(p.bins, None, 24.0))
  }

  /** A reference means what it means with its defaults written out; numbers its block does not read change nothing. */
  lemma DefaultsSpelledOut(block: Block, p: Params)
    ensures QueryOf(block, p) == QueryOf(block, Explicit(block, p))
  {
  }
}
