/** The keyed indicator cache of one evaluation (`IndicatorCache`, `getIndicatorValues`). */
module IndicatorCache {
  import opened Wrappers
  import opened Market
  import opened Ema
  import opened Indicators

  /**
   * How the machine's numbers, finitely many, print inside composite keys: distinct numbers differ, and no
   * numeral contains '_'.
   */
  ghost predicate Numeral(show: real -> string, numbers: set<real>) {
    && (forall x, y :: x in numbers && y in numbers && show(x) == show(y) ==> x == y)
    && (forall x :: x in numbers ==> '_' !in show(x))
  }

  /** The parameter values the source falls back to. */
  const DEFAULTS: set<real> := {0.0, 1.5, 2.0, 3.0, 5.0, 9.0, 10.0, 12.0, 14.0, 20.0, 24.0, 26.0, 50.0}

  ghost predicate Known(numbers: set<real>, x: Option<real>) {
    x.Some? ==> x.value in numbers
  }

  /** The given parameters, and the defaults, are numbers of the machine. */
  ghost predicate Speaks(numbers: set<real>, p: Params) {
    && DEFAULTS <= numbers
    && Known(numbers, p.length) && Known(numbers, p.period) && Known(numbers, p.atrPeriod)
    && Known(numbers, p.multiplier) && Known(numbers, p.fastPeriod) && Known(numbers, p.slowPeriod)
    && Known(numbers, p.signalPeriod) && Known(numbers, p.stdDevMult) && Known(numbers, p.bins)
  }

  ghost predicate AllKnown(numbers: set<real>, comp: Calc)
    requires IsPattern(comp)
  {
    match comp
    case FairValueGap(r) => r in numbers
    case LiquiditySweep(l, a) => l in numbers && a in numbers
    case OrderBlock(p, m, l) => p in numbers && m in numbers && l in numbers
    case StructureShift(l) => l in numbers
  }

  function Key2(show: real -> string, a: real, b: real): string {
    show(a) + "_" + show(b)
  }

  function Key3(show: real -> string, a: real, b: real, c: real): string {
    show(a) + "_" + Key2(show, b, c)
  }

  /** The four pattern kinds share one map; the prefix tells them apart. */
  function PatternKey(show: real -> string, comp: Calc): string
    requires IsPattern(comp)
  {
    match comp
    case FairValueGap(r) => "fvg_" + show(r)
    case LiquiditySweep(l, a) => "sweep_" + Key2(show, l, a)
    case OrderBlock(p, m, l) => "ob_" + Key3(show, p, m, l)
    case StructureShift(l) => "mss_" + show(l)
  }

  /** A string splits in one way only at its first underscore. */
  lemma SplitAtUnderscore(a: string, x: string, b: string, y: string)
    requires '_' !in a && '_' !in b
    requires a + "_" + x == b + "_" + y
    ensures a == b && x == y
  {
    var s, t := a + "_" + x, b + "_" + y;
    assert s[|a|] == '_' && t[|b|] == '_';
    assert forall k :: 0 <= k < |a| ==> s[k] == a[k] != '_';
    assert forall k :: 0 <= k < |b| ==> t[k] == b[k] != '_';
    assert |a| == |b|;
    assert a == s[..|a|] && b == t[..|b|];
    assert x == s[|a| + 1..] && y == t[|b| + 1..];
  }

  lemma Key2Injective(show: real -> string, numbers: set<real>, a: real, b: real, c: real, d: real)
    requires Numeral(show, numbers) && {a, b, c, d} <= numbers
    requires Key2(show, a, b) == Key2(show, c, d)
    ensures a == c && b == d
  {
    SplitAtUnderscore(show(a), show(b), show(c), show(d));
  }

  lemma Key3Injective(show: real -> string, numbers: set<real>, a: real, b: real, c: real, d: real, e: real, f: real)
    requires Numeral(show, numbers) && {a, b, c, d, e, f} <= numbers
    requires Key3(show, a, b, c) == Key3(show, d, e, f)
    ensures a == d && b == e && c == f
  {
    SplitAtUnderscore(show(a), Key2(show, b, c), show(d), Key2(show, e, f));
    Key2Injective(show, numbers, b, c, e, f);
  }

  /** Two pattern computations share a key only if they are the same computation. */
  lemma PatternKeyInjective(show: real -> string, numbers: set<real>, p: Calc, q: Calc)
    requires Numeral(show, numbers) && IsPattern(p) && IsPattern(q) && AllKnown(numbers, p) && AllKnown(numbers, q)
    requires PatternKey(show, p) == PatternKey(show, q)
    ensures p == q
  {
    var s, t := PatternKey(show, p), PatternKey(show, q);
    assert s[0] == t[0];
    match p
    case FairValueGap(r) =>
      assert s[4..] == show(r) && t[4..] == show(q.minGapRatio);
    case LiquiditySweep(l, a) =>
      assert s[6..] == Key2(show, l, a) && t[6..] == Key2(show, q.swingLen, q.maxAge);
      Key2Injective(show, numbers, l, a, q.swingLen, q.maxAge);
    case OrderBlock(a, m, l) =>
      assert s[3..] == Key3(show, a, m, l) && t[3..] == Key3(show, q.atrPeriod, q.minImpulse, q.maxLookback);
      Key3Injective(show, numbers, a, m, l, q.atrPeriod, q.minImpulse, q.maxLookback);
    case StructureShift(l) =>
      assert s[4..] == show(l) && t[4..] == show(q.swingLen);
  }

  class Cache {
    const lib: Library
    const show: real -> string
    ghost const numbers: set<real>
    const candles: seq<Candle>

    var sma: map<real, Series>
    var ema: map<real, Series>
    var rsi: map<real, Series>
    var atr: map<real, Series>
    var adx: map<real, Output>
    var supertrend: map<string, Output>
    var vwap: Option<Series>
    var bollinger: map<string, Output>
    var macd: map<string, Output>
    var volume: Option<Series>
    var smcPatterns: map<string, Series>
    var volumeProfile: map<string, Output>

    /** Every entry, under every key that could look it up, is the direct computation. */
    ghost predicate Consistent()
      reads this
    {
      && Numeral(show, numbers)
      && (forall x :: x in sma ==> sma[x] == Compute(lib, Sma(x), candles).main)
      && (forall x :: x in ema ==> ema[x] == Compute(lib, Ema(x), candles).main)
      && (forall x :: x in rsi ==> rsi[x] == Compute(lib, Rsi(x), candles).main)
      && (forall x :: x in atr ==> atr[x] == Compute(lib, Atr(x), candles).main)
      && (forall x :: x in adx ==> adx[x] == Compute(lib, Adx(x), candles))
      && (forall x, y :: x in numbers && y in numbers && Key2(show, x, y) in supertrend ==>
            supertrend[Key2(show, x, y)] == Compute(lib, SuperTrend(x, y), candles))
      && (vwap.Some? ==> vwap.value == Compute(lib, Vwap, candles).main)
      && (forall x, y :: x in numbers && y in numbers && Key2(show, x, y) in bollinger ==>
            bollinger[Key2(show, x, y)] == Compute(lib, Bollinger(x, y), candles))
      && (forall x, y, z :: x in numbers && y in numbers && z in numbers && Key3(show, x, y, z) in macd ==>
            macd[Key3(show, x, y, z)] == Compute(lib, Macd(x, y, z), candles))
      && (volume.Some? ==> volume.value == VolumeSeries(candles))
      && (forall comp :: IsPattern(comp) && AllKnown(numbers, comp) && PatternKey(show, comp) in smcPatterns ==>
            smcPatterns[PatternKey(show, comp)] == Compute(lib, comp, candles).main)
      && (forall x, y :: x in numbers && y in numbers && Key2(show, x, y) in volumeProfile ==>
            volumeProfile[Key2(show, x, y)] == Compute(lib, VolumeProfile(x, y), candles))
    }

    constructor (lib: Library, show: real -> string, ghost numbers: set<real>, candles: seq<Candle>)
      requires Numeral(show, numbers)
      ensures Consistent()
      ensures this.lib == lib && this.show == show && this.numbers == numbers && this.candles == candles
    {
      this.lib, this.show, this.numbers, this.candles := lib, show, numbers, candles;
      sma, ema, rsi, atr, adx := map[], map[], map[], map[], map[];
      supertrend, bollinger, macd, smcPatterns, volumeProfile := map[], map[], map[], map[], map[];
      vwap, volume := None, None;
    }

    method GetSma(len: real) returns (out: Series)
      requires Consistent()
      modifies this
      ensures Consistent() && out == Compute(lib, Sma(len), candles).main
    {
      if len !in sma { sma := sma[len := Compute(lib, Sma(len), candles).main]; }
      out := sma[len];
    }

    method GetEma(len: real) returns (out: Series)
      requires Consistent()
      modifies this
      ensures Consistent() && out == Compute(lib, Ema(len), candles).main
    {
      if len !in ema { ema := ema[len := Compute(lib, Ema(len), candles).main]; }
      out := ema[len];
    }

    method GetRsi(len: real) returns (out: Series)
      requires Consistent()
      modifies this
      ensures Consistent() && out == Compute(lib, Rsi(len), candles).main
    {
      if len !in rsi { rsi := rsi[len := Compute(lib, Rsi(len), candles).main]; }
      out := rsi[len];
    }

    method GetAtr(period: real) returns (out: Series)
      requires Consistent()
      modifies this
      ensures Consistent() && out == Compute(lib, Atr(period), candles).main
    {
      if period !in atr { atr := atr[period := Compute(lib, Atr(period), candles).main]; }
      out := atr[period];
    }

    method GetAdx(period: real) returns (out: Output)
      requires Consistent()
      modifies this
      ensures Consistent() && out == Compute(lib, Adx(period), candles)
    {
      if period !in adx { adx := adx[period := Compute(lib, Adx(period), candles)]; }
      out := adx[period];
    }

    method GetVwap() returns (s: Series)
      requires Consistent()
      modifies this
      ensures Consistent() && s == Compute(lib, Vwap, candles).main
    {
      if vwap == None { vwap := Some(Compute(lib, Vwap, candles).main); }
      s := vwap.value;
    }

    method GetVolume() returns (s: Series)
      requires Consistent()
      modifies this
      ensures Consistent() && s == VolumeSeries(candles)
    {
      if volume == None { volume := Some(VolumeSeries(candles)); }
      s := volume.value;
    }

    method GetBollinger(p: Params) returns (out: Output)
      requires Consistent() && Speaks(numbers, p)
      modifies this
      ensures Consistent() && out == Compute(lib, BollingerOf(p), candles)
    {
      var period := p.period.Else(p.length.Else(20.0));
      var mult := p.stdDevMult.Else(p.multiplier.Else(2.0));
      var key := Key2(show, period, mult);
      if key !in bollinger {
        forall x, y | x in numbers && y in numbers && Key2(show, x, y) == key ensures x == period && y == mult {
          Key2Injective(show, numbers, x, y, period, mult);
        }
        bollinger := bollinger[key := Compute(lib, Bollinger(period, mult), candles)];
      }
      out := bollinger[key];
    }

    method GetSuperTrend(p: Params) returns (out: Output)
      requires Consistent() && Speaks(numbers, p)
      modifies this
      ensures Consistent() && out == Compute(lib, SuperTrend(p.atrPeriod.Else(10.0), p.multiplier.Else(3.0)), candles)
    {
      var atrPeriod := p.atrPeriod.Else(10.0);
      var multiplier := p.multiplier.Else(3.0);
      var key := Key2(show, atrPeriod, multiplier);
      if key !in supertrend {
        forall x, y | x in numbers && y in numbers && Key2(show, x, y) == key
          ensures x == atrPeriod && y == multiplier
        {
          Key2Injective(show, numbers, x, y, atrPeriod, multiplier);
        }
        supertrend := supertrend[key := Compute(lib, SuperTrend(atrPeriod, multiplier), candles)];
      }
      out := supertrend[key];
    }

    method GetMacd(p: Params) returns (out: Output)
      requires Consistent() && Speaks(numbers, p)
      modifies this
      ensures Consistent() && out == Compute(lib, MacdOf(p), candles)
    {
      var fast := p.fastPeriod.Else(12.0);
      var slow := p.slowPeriod.Else(26.0);
      var sig := p.signalPeriod.Else(9.0);
      var key := Key3(show, fast, slow, sig);
      if key !in macd {
        forall x, y, z | x in numbers && y in numbers && z in numbers && Key3(show, x, y, z) == key
          ensures x == fast && y == slow && z == sig
        {
          Key3Injective(show, numbers, x, y, z, fast, slow, sig);
        }
        macd := macd[key := Compute(lib, Macd(fast, slow, sig), candles)];
      }
      out := macd[key];
    }

    method GetVolumeProfile(p: Params) returns (out: Output)
      requires Consistent() && Speaks(numbers, p)
      modifies this
      ensures Consistent() && out == Compute(lib, ProfileOf(p), candles)
    {
      var period := p.period.Else(20.0);
      var bins := p.bins.Else(24.0);
      var key := Key2(show, period, bins);
      if key !in volumeProfile {
        forall x, y | x in numbers && y in numbers && Key2(show, x, y) == key ensures x == period && y == bins {
          Key2Injective(show, numbers, x, y, period, bins);
        }
        volumeProfile := volumeProfile[key := Compute(lib, VolumeProfile(period, bins), candles)];
      }
      out := volumeProfile[key];
    }

    method GetPattern(comp: Calc) returns (s: Series)
      requires Consistent() && IsPattern(comp) && AllKnown(numbers, comp)
      modifies this
      ensures Consistent() && s == Compute(lib, comp, candles).main
    {
      var key := PatternKey(show, comp);
      if key !in smcPatterns {
        forall c | IsPattern(c) && AllKnown(numbers, c) && PatternKey(show, c) == key ensures c == comp {
          PatternKeyInjective(show, numbers, c, comp);
        }
        smcPatterns := smcPatterns[key := Compute(lib, comp, candles).main];
      }
      s := smcPatterns[key];
    }

    /** Caching is transparent: the answer is the direct computation, and the cache stays consistent. */
    method GetIndicatorValues(blockType: string, p: Params) returns (s: Series)
      requires Consistent() && Speaks(numbers, p)
      modifies this
      ensures Consistent()
      ensures s == Answer(lib, QueryOf(BlockOf(blockType), p), candles)
    {
      hide BlockOf;
      hide Consistent;
      match BlockOf(blockType)
      case SmaBlock => s := GetSma(p.length.Else(14.0));
      case EmaBlock => s := GetEma(p.length.Else(14.0));
      case RsiBlock => s := GetRsi(p.length.Else(14.0));
      case AtrBlock => s := GetAtr(p.period.Else(p.length.Else(14.0)));
      case AdxBlock =>
        var result := GetAdx(p.period.Else(p.length.Else(14.0)));
        s := result.main;
      case SuperTrendBlock =>
        var result := GetSuperTrend(p);
        s := result.main;
      case VwapBlock => s := GetVwap();
      case BollingerLower =>
        var bb := GetBollinger(p);
        s := bb.main;
      case BollingerUpper =>
        var bb := GetBollinger(p);
        s := bb.second;
      case BollingerMiddle =>
        var bb := GetBollinger(p);
        s := bb.third;
      case MacdHistogram =>
        var result := GetMacd(p);
        s := result.main;
      case MacdSignal =>
        var result := GetMacd(p);
        s := result.second;
      case VolumeBlock => s := GetVolume();
      case ConstantBlock => s := ConstantSeries(Some(p.length.Else(p.value.Else(0.0))), |candles|);
      case GapBlock => s := GetPattern(FairValueGap(p.multiplier.Else(0.0)));
      case SweepBlock => s := GetPattern(LiquiditySweep(p.length.Else(3.0), p.period.Else(50.0)));
      case OrderBlockBlock =>
        s := GetPattern(OrderBlock(p.period.Else(14.0), p.multiplier.Else(1.5), p.length.Else(5.0)));
      case ShiftBlock => s := GetPattern(StructureShift(p.length.Else(3.0)));
      case ProfilePoc =>
        var vp := GetVolumeProfile(p);
        s := vp.main;
      case ProfileVah =>
        var vp := GetVolumeProfile(p);
        s := vp.second;
      case ProfileVal =>
        var vp := GetVolumeProfile(p);
        s := vp.third;
      case OtherBlock => s := ConstantSeries(None, |candles|);
    }
  }

  datatype Call = Call(blockType: string, params: Params)

  /** Over any sequence of calls on one cache, each returns what an uncached call would. */
  method AnswerAll(lib: Library, show: real -> string, ghost numbers: set<real>, candles: seq<Candle>, calls: seq<Call>)
    returns (answers: seq<Series>)
    requires Numeral(show, numbers) && forall k :: 0 <= k < |calls| ==> Speaks(numbers, calls[k].params)
    ensures |answers| == |calls|
    ensures forall k :: 0 <= k < |calls| ==>
      answers[k] == Answer(lib, QueryOf(BlockOf(calls[k].blockType), calls[k].params), candles)
  {
    hide BlockOf;
    hide QueryOf;
    hide Answer;
    hide Cache.Consistent;
    var cache := new Cache(lib, show, numbers, candles);
    answers := [];
    for n := 0 to |calls|
      invariant cache.Consistent()
      invariant cache.lib == lib && cache.numbers == numbers && cache.candles == candles
      invariant |answers| == n
      invariant forall k :: 0 <= k < n ==>
        answers[k] == Answer(lib, QueryOf(BlockOf(calls[k].blockType), calls[k].params), candles)
    {
      var s := cache.GetIndicatorValues(calls[n].blockType, calls[n].params);
      answers := answers + [s];
    }
  }
}
