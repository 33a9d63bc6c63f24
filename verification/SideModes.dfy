/** On which side conditions the live engines and the backtest agree: the backtest knows no sign mode. */
module SideModes {
  import opened Wrappers
  import opened Market
  import opened Reals
  import opened Ema
  import opened Indicators
  import opened Signals
  import opened Strategy
  import opened LiveParity
  import opened Separation

  // ----- accidental agreement -----

  /** The test holds of everything above the indicator. */
  predicate Upward(op: Op) {
    op == Gt || op == Gte
  }

  /** The sign of a constant is what comparing the source with it comes to, whatever the data. */
  predicate ConstantAgrees(sc: SideCondition, v: real) {
    match sc.source.Else(ClosePrice)
    case OtherField => v == 0.0
    case VolumeField => v == 0.0 && sc.longOp == OtherOp && sc.shortOp == OtherOp
    case OpenTime => v == 0.0 && sc.longOp == OtherOp && sc.shortOp == OtherOp
    case _ =>
      if v == 0.0 then !Upward(sc.longOp) && !Upward(sc.shortOp)
      else v < 0.0 && !Upward(sc.longOp) && Upward(sc.shortOp)
  }

  /** In sign mode: unknown indicators, some constants, and the average over one bar, which is the close itself. */
  predicate SignAgrees(sc: SideCondition) {
    match sc.indicator.block
    case OtherBlock => true
    case ConstantBlock => ConstantAgrees(sc, sc.indicator.params.length.Else(0.0))
    case EmaBlock =>
      && sc.indicator.params.length.Else(14.0) == 1.0
      && sc.source.Else(ClosePrice) == ClosePrice && sc.longOp in {Gte, Lte, Eq}
    case _ => false
  }

  predicate SidesCompatible(entry: Entry) {
    || SideParity(entry)
    || (entry.sideCondition.value.mode == Some(IndicatorSign) && SignAgrees(entry.sideCondition.value))
  }

  function BackQuery(sc: SideCondition): Query {
    QueryOf(sc.indicator.block, BacktestParams(sc.indicator.params))
  }

  function LiveQuery(sc: SideCondition): Query {
    QueryOf(sc.indicator.block, LiveParams(sc.indicator.params))
  }

  /** In sign mode the two sides come from these. */
  lemma SignSides(lib: Library, entry: Entry, i: nat, candles: seq<Candle>)
    requires i < |candles| && entry.side == None && entry.sideCondition.Some?
    requires entry.sideCondition.value.mode == Some(IndicatorSign)
    ensures
      var sc := entry.sideCondition.value;
      SidesAgree(lib, entry, i, candles) <==>
        SignOf(ValueAt(lib, LiveQuery(sc), candles, i))
        == SideByPrice(sc, CandleField(candles[i], sc.source.Else(ClosePrice)),
                       ValueAt(lib, BackQuery(sc), candles, i))
  {
    hide ValueAt;
    hide SideByPrice;
    hide CandleField;
    hide QueryOf;
  }

  lemma ConstantAgreement(sc: SideCondition, v: real, c: Candle)
    requires ConstantAgrees(sc, v)
    ensures SignOf(Some(v)) == SideByPrice(sc, CandleField(c, sc.source.Else(ClosePrice)), Some(v))
  {
  }

  lemma AccidentsAgree(lib: Library, entry: Entry, i: nat, candles: seq<Candle>)
    requires i < |candles| && entry.side == None && entry.sideCondition.Some?
    requires entry.sideCondition.value.mode == Some(IndicatorSign) && SignAgrees(entry.sideCondition.value)
    ensures SidesAgree(lib, entry, i, candles)
  {
    var sc := entry.sideCondition.value;
    SignSides(lib, entry, i, candles);
    hide SidesAgree;
    match sc.indicator.block
    case ConstantBlock => ConstantAgreement(sc, sc.indicator.params.length.Else(0.0), candles[i]);
    case EmaBlock => OneBarAverage(candles, i);
    case _ =>
  }

  /** An average over one bar is that bar's close. */
  lemma OneBarAverage(candles: seq<Candle>, i: nat)
    requires i < |candles|
    ensures EmaSeries(candles, 1)[i] == Some(candles[i].close)
  {
    if i > 0 {
      EmaStep(candles, 1, i);
      assert Alpha(1) == 1.0;
    } else {
      assert CloseSum(candles, 1) == CloseSum(candles, 0) + candles[0].close;
    }
  }

  // ----- and data on which the others part -----

  /** Another value than `x`, on the side on which the test against `x` fails. */
  function Off(op: Op, x: real): real {
    if op == Lt || op == Lte then x + 1.0 else x / 2.0
  }

  function OffTime(op: Op, x: real): int {
    if op == Lt || op == Lte then x.Floor + 1 else x.Floor - 1
  }

  lemma OffFails(op: Op, x: real)
    requires x > 0.0
    ensures Off(op, x) > 0.0 && !EvalOp(op, Off(op, x), x) && !EvalOp(op, OffTime(op, x) as real, x)
  {
  }

  /** A candle with the given close, whose other fields all fail the test against `x`. */
  function OffCandle(op: Op, x: real, close: Price): Candle
    requires x > 0.0
  {
    Candle(OffTime(op, x), Off(op, x), Off(op, x), Off(op, x), close, Off(op, x))
  }

  /** A positive indicator whose test for long fails. */
  lemma NotLong(sc: SideCondition, c: Candle, x: real)
    requires x > 0.0
    requires var field := CandleField(c, sc.source.Else(ClosePrice));
             field.Some? ==> !EvalOp(sc.longOp, field.value, x)
    ensures SignOf(Some(x)) != SideByPrice(sc, CandleField(c, sc.source.Else(ClosePrice)), Some(x))
  {
  }

  lemma ConstantParts(sc: SideCondition, v: real) returns (c: Candle)
    requires !ConstantAgrees(sc, v)
    ensures SignOf(Some(v)) != SideByPrice(sc, CandleField(c, sc.source.Else(ClosePrice)), Some(v))
  {
    if v > 0.0 {
      OffFails(sc.longOp, v);
      c := OffCandle(sc.longOp, v, Off(sc.longOp, v));
      NotLong(sc, c, v);
    } else {
      var below := v < 0.0 && sc.shortOp in {Gt, Gte};
      var above := v == 0.0 && (sc.longOp in {Gt, Gte} || (sc.longOp == OtherOp && sc.shortOp in {Gt, Gte}));
      var low := v == 0.0 && !above && (sc.longOp in {Lt, Lte} || (sc.longOp == OtherOp && sc.shortOp in {Lt, Lte}));
      var x := if below then v.Floor - 1 else if above then 1 else if low then -1 else 0;
      c := Candle(x, 1.0, 1.0, 1.0, 1.0, x as real);
    }
  }

  /** Closes at 2, and a last bar. */
  function Closes(length: nat, last: Candle): seq<Candle>
    requires length >= 1
  {
    seq(length - 1, _ => FlatCandle(2)) + [last]
  }

  lemma AverageOf(length: nat, last: Candle)
    requires length >= 1
    ensures EmaSeries(Closes(length, last), length)[length - 1]
         == Some((2.0 * (length - 1) as real + last.close) / length as real)
  {
    var candles := Closes(length, last);
    CloseSumWithin(candles, length - 1, 2.0, 2.0);
    assert CloseSum(candles, length) == CloseSum(candles, length - 1) + candles[length - 1].close;
    assert EmaAt(candles, length, length - 1) == CloseSum(candles, length) / length as real;
  }

  lemma AverageParts(sc: SideCondition, length: nat) returns (last: Candle)
    requires length >= 1
    requires !(length == 1 && sc.source.Else(ClosePrice) == ClosePrice && sc.longOp in {Gte, Lte, Eq})
    ensures
      var x := EmaSeries(Closes(length, last), length)[length - 1];
      SignOf(x) != SideByPrice(sc, CandleField(last, sc.source.Else(ClosePrice)), x)
  {
    if sc.source.Else(ClosePrice) != ClosePrice {
      OffFails(sc.longOp, 2.0);
      last := OffCandle(sc.longOp, 2.0, 2.0);
    } else {
      last := FlatCandle(if length == 1 then 2 else if sc.longOp in {Lt, Lte} then 3 else 1);
    }
    AverageOf(length, last);
    var x := EmaSeries(Closes(length, last), length)[length - 1].value;
    assert x * length as real == 2.0 * (length - 1) as real + last.close;
    assert (length - 1) as real == length as real - 1.0;
    AverageBetween(length as real, last.close, x);
    hide EmaSeries;
    hide Off;
    hide OffTime;
    hide Closes;
    NotLong(sc, last, x);
  }

  /** The average lies strictly between 2 and the last close, if there is another bar. */
  lemma AverageBetween(n: real, close: real, x: real)
    requires n >= 1.0 && close > 0.0 && x * n == 2.0 * (n - 1.0) + close
    ensures x > 0.0
    ensures close == 2.0 ==> x == 2.0
    ensures n > 1.0 && close < 2.0 ==> close < x
    ensures n > 1.0 && close > 2.0 ==> x < close
  {
    if x <= 0.0 { MulMono(x, 0.0, n); }
    Weighted(n, close);
    if close == 2.0 {
      QuotientAtLeast(x, n, 2.0);
      QuotientAtMost(x, n, 2.0);
    } else if n > 1.0 && close < 2.0 {
      CancelStrict(close, x, n);
    } else if n > 1.0 {
      CancelStrict(x, close, n);
    }
  }

  lemma Weighted(n: real, close: real)
    ensures n > 1.0 && close < 2.0 ==> close * n < 2.0 * (n - 1.0) + close
    ensures n > 1.0 && close > 2.0 ==> close * n > 2.0 * (n - 1.0) + close
  {
    assert close * n == close * (n - 1.0) + close;
    if n > 1.0 && close < 2.0 { MulStrict(close, 2.0, n - 1.0); }
    if n > 1.0 && close > 2.0 { MulStrict(2.0, close, n - 1.0); }
  }

  lemma VolumeParts(sc: SideCondition) returns (c: Candle)
    ensures SignOf(Some(c.volume)) != SideByPrice(sc, CandleField(c, sc.source.Else(ClosePrice)), Some(c.volume))
  {
    var x := if sc.source == Some(VolumeField) && sc.longOp in {Gte, Lte, Eq} then 0.0 else 1.0;
    OffFails(sc.longOp, 1.0);
    c := OffCandle(sc.longOp, 1.0, Off(sc.longOp, 1.0)).(volume := x);
    if x == 1.0 {
      NotLong(sc, c, 1.0);
    }
  }

  /** A value `v` among 1, 2, 3 for which `2 op v` holds. */
  function Satisfying(op: Op): real {
    match op
    case Gt => 1.0
    case Gte => 1.0
    case Lt => 3.0
    case Lte => 3.0
    case _ => 2.0
  }

  /** The condition goes to the library rather than to a concrete or constant series. */
  predicate FromLibrary(sc: SideCondition) {
    LiveQuery(sc).Computed? && !Concrete(LiveQuery(sc).comp)
  }

  lemma LibraryParts(entry: Entry) returns (lib: Library, candles: seq<Candle>)
    requires !SideParity(entry) && FromLibrary(entry.sideCondition.value)
    ensures Causal(lib) && |candles| == 1 && !SidesAgree(lib, entry, 0, candles)
  {
    var sc := entry.sideCondition.value;
    var live, back := LiveQuery(sc), BackQuery(sc);
    if sc.mode == Some(IndicatorSign) {
      lib := Only(live.comp, 2.0);
      OnlyIsCausal(live.comp, 2.0);
      candles := [FlatCandle(if sc.longOp == Lt || sc.longOp == Lte then 3 else 1)];
      OnlyValue(live.comp, 2.0, live, candles, 0);
      OnlyValue(live.comp, 2.0, back, candles, 0);
    } else {
      var v := Satisfying(if sc.longOp != OtherOp then sc.longOp else sc.shortOp);
      lib := Only(back.comp, v);
      OnlyIsCausal(back.comp, v);
      candles := [FlatCandle(2)];
      OnlyValue(back.comp, v, live, candles, 0);
      OnlyValue(back.comp, v, back, candles, 0);
    }
  }

  /** Only library computations tell the two resolvers apart. */
  lemma OnlySignIsLeft(entry: Entry)
    requires !SidesCompatible(entry)
    ensures entry.side == None && entry.sideCondition.Some? && !FromLibrary(entry.sideCondition.value) ==>
      entry.sideCondition.value.mode == Some(IndicatorSign)
  {
  }

  lemma ConcreteParts(lib: Library, entry: Entry) returns (candles: seq<Candle>, i: nat)
    requires !SidesCompatible(entry) && !FromLibrary(entry.sideCondition.value)
    ensures i < |candles| && !SidesAgree(lib, entry, i, candles)
  {
    var sc := entry.sideCondition.value;
    OnlySignIsLeft(entry);
    if sc.indicator.block == ConstantBlock {
      var c := ConstantParts(sc, sc.indicator.params.length.Else(0.0));
      candles, i := [c], 0;
    } else if sc.indicator.block == VolumeBlock {
      var c := VolumeParts(sc);
      candles, i := [c], 0;
    } else {
      var length: nat := sc.indicator.params.length.Else(14.0).Floor;
      var last := AverageParts(sc, length);
      candles, i := Closes(length, last), length - 1;
      hide EmaSeries;
    }
    SignSides(lib, entry, i, candles);
  }

  /**
   * The live side and the backtest side agree on all data and all libraries exactly when the side is fixed, the
   * condition compares prices through a reference both resolvers read alike (or can never hold), or its sign mode
   * agrees by one of the accidents above.
   */
  lemma SidesAgreeExactly(entry: Entry)
    ensures SidesAlwaysAgree(entry) <==> SidesCompatible(entry)
  {
    if SidesCompatible(entry) {
      forall lib: Library, candles: seq<Candle>, i: nat | i < |candles|
        ensures SidesAgree(lib, entry, i, candles)
      {
        if !SideParity(entry) { AccidentsAgree(lib, entry, i, candles); }
      }
    } else if FromLibrary(entry.sideCondition.value) {
      var lib, candles := LibraryParts(entry);
    } else {
      var candles, i := ConcreteParts(Only(Vwap, 0.0), entry);
    }
  }
}
