/** What the values of the pattern series say about the candles. */
module PatternMeanings {
  import opened Wrappers
  import opened Market
  import opened Reals
  import opened Indicators
  import opened Patterns
  import opened PatternHindsight

  /** The candles around bar `k` leave prices untraded above the first and below the third, or the other way round. */
  predicate LeavesGap(ratio: real, candles: seq<Candle>, k: nat, upwards: bool)
    requires 1 <= k && k + 1 < |candles|
  {
    var first, body, third := candles[k - 1], candles[k].close - candles[k].open, candles[k + 1];
    var gap := if upwards then third.low - first.high else first.low - third.high;
    gap > 0.0 && (ratio == 0.0 || body == 0.0 || gap >= ratio * Abs(body))
  }

  /** A bar of the gap series shows a bearish gap, else a bullish one, exactly where the candles leave one. */
  lemma GapSeriesMeans(ratio: real, candles: seq<Candle>, k: nat)
    requires 2 <= k && k + 1 < |candles|
    ensures At(FvgSeries(ratio, candles), k) ==
      Some(if LeavesGap(ratio, candles, k, false) then -1.0
           else if LeavesGap(ratio, candles, k, true) then 1.0 else 0.0)
  {
    GapSeriesAt(ratio, candles, k);
    hide FvgSeries;
    var body := Abs(candles[k].close - candles[k].open);
    if body != 0.0 {
      RatioAtLeast(candles[k + 1].low - candles[k - 1].high, body, ratio);
      RatioAtLeast(candles[k - 1].low - candles[k + 1].high, body, ratio);
    }
  }

  lemma RatioAtLeast(gap: real, body: real, ratio: real)
    requires body > 0.0
    ensures gap / body >= ratio <==> gap >= ratio * body
  {
    var q := gap / body;
    assert q * body == gap;
    MulOrder(ratio, q, body, ratio * body, gap);
  }

  /** A swing low within reach that the bar's wick takes out and its close wins back; for highs the other way round. */
  ghost predicate TakesOut(candles: seq<Candle>, len: nat, maxAge: real, k: nat, low: bool)
    requires k < |candles|
  {
    exists j: nat ::
      && len <= j < k && j + len < |candles| && (k - j) as real <= maxAge
      && if low then IsSwingLow(candles, len, j) && candles[k].low < candles[j].low < candles[k].close
         else IsSwingHigh(candles, len, j) && candles[k].close < candles[j].high < candles[k].high
  }

  lemma {:induction false} LastOfSweeps(candles: seq<Candle>, maxAge: real, k: nat, swings: seq<Swing>)
    requires k < |candles|
    ensures LastAt(SweepsAt(candles, maxAge, k, swings), k).Some? ==>
      exists s :: s in swings && Sweeps(candles, maxAge, k, s)
                  && LastAt(SweepsAt(candles, maxAge, k, swings), k) == Some(if s.high then -1.0 else 1.0)
    ensures LastAt(SweepsAt(candles, maxAge, k, swings), k) == None ==>
      forall s :: s in swings ==> !Sweeps(candles, maxAge, k, s)
  {
    hide Sweeps;
    if swings != [] {
      var before, s := swings[..|swings| - 1], swings[|swings| - 1];
      LastOfSweeps(candles, maxAge, k, before);
      assert swings == before + [s];
      var mark := if Sweeps(candles, maxAge, k, s) then [SweepMark(k, s)] else [];
      LastAtAppend(SweepsAt(candles, maxAge, k, before), mark, k);
      assert [SweepMark(k, s)][..0] == [];
    }
  }

  lemma {:induction false} SwingsAreAll(candles: seq<Candle>, len: nat, b: int, j: nat)
    requires b + len <= |candles| && len <= j < b
    ensures IsSwingHigh(candles, len, j) ==> Swing(j, candles[j].high, true) in Swings(candles, len, b)
    ensures IsSwingLow(candles, len, j) ==> Swing(j, candles[j].low, false) in Swings(candles, len, b)
    decreases b
  {
    hide IsSwingHigh;
    hide IsSwingLow;
    assert Swings(candles, len, b) == Swings(candles, len, b - 1) + SwingsAt(candles, len, b - 1);
    hide Swings;
    if j < b - 1 { SwingsAreAll(candles, len, b - 1, j); }
  }

  /** The extreme of its bar, beyond that of every other bar within `len` of it, none of which is missing. */
  predicate Stands(candles: seq<Candle>, len: nat, s: Swing) {
    && len <= s.index && s.index + len < |candles|
    && s.level == (if s.high then candles[s.index].high else candles[s.index].low)
    && forall k | s.index - len <= k <= s.index + len && k != s.index ::
         if s.high then candles[k].high < s.level else s.level < candles[k].low
  }

  /** The swing points are exactly the highs and lows that stand out by the swing length on both sides. */
  lemma SwingPointsExactly(candles: seq<Candle>, len: nat, s: Swing)
    ensures s in Swings(candles, len, |candles| - len) <==> Stands(candles, len, s)
  {
    var b := |candles| - len;
    if s in Swings(candles, len, b) {
      SwingsAreSwings(candles, len, b, s);
      SwingStands(candles, len, s);
    } else if Stands(candles, len, s) {
      SwingStands(candles, len, s);
      SwingsAreAll(candles, len, b, s.index);
    }
    hide Swings;
    hide IsSwingHigh;
    hide IsSwingLow;
    hide Stands;
  }

  lemma SwingStands(candles: seq<Candle>, len: nat, s: Swing)
    requires len <= s.index && s.index + len < |candles|
    requires s.level == if s.high then candles[s.index].high else candles[s.index].low
    ensures Stands(candles, len, s)
       <==> if s.high then IsSwingHigh(candles, len, s.index) else IsSwingLow(candles, len, s.index)
  {
    var i := s.index;
    if s.high && IsSwingHigh(candles, len, i) {
      forall k | i - len <= k <= i + len && k != i ensures candles[k].high < s.level {
        assert Tops(candles, i, if k < i then i - k else k - i);
      }
    }
    if !s.high && IsSwingLow(candles, len, i) {
      forall k | i - len <= k <= i + len && k != i ensures s.level < candles[k].low {
        assert Bottoms(candles, i, if k < i then i - k else k - i);
      }
    }
    if Stands(candles, len, s) {
      forall j | 1 <= j <= len
        ensures s.high ==> Tops(candles, i, j)
        ensures !s.high ==> Bottoms(candles, i, j)
      {
        assert i - len <= i - j < i < i + j <= i + len;
      }
    }
  }

  /**
   * On data long enough, a bar of the sweep series is bullish only if it takes out a swing low, bearish only if it
   * takes out a swing high, and silent only if it does neither.
   */
  lemma SweepSeriesMeans(len: nat, maxAge: real, candles: seq<Candle>, k: nat)
    requires |candles| >= 2 * len + 2 && len < k < |candles|
    ensures
      var v := At(SweepSeries(len, maxAge, candles), k);
      && v in {Some(1.0), Some(-1.0), Some(0.0)}
      && (v == Some(1.0) ==> TakesOut(candles, len, maxAge, k, true))
      && (v == Some(-1.0) ==> TakesOut(candles, len, maxAge, k, false))
      && (v == Some(0.0) ==> !TakesOut(candles, len, maxAge, k, true) && !TakesOut(candles, len, maxAge, k, false))
  {
    SweepSeriesAt(candles, len, maxAge, k);
    hide SweepSeries;
    hide Swings;
    hide SweepsAt;
    hide TakesOut;
    SweepsTakeOut(len, maxAge, candles, k);
  }

  lemma SweepsTakeOut(len: nat, maxAge: real, candles: seq<Candle>, k: nat)
    requires |candles| >= 2 * len + 2 && len < k < |candles|
    ensures
      var last := LastAt(SweepsAt(candles, maxAge, k, Swings(candles, len, |candles| - len)), k);
      && last in {None, Some(1.0), Some(-1.0)}
      && (last == Some(1.0) ==> TakesOut(candles, len, maxAge, k, true))
      && (last == Some(-1.0) ==> TakesOut(candles, len, maxAge, k, false))
      && (last == None ==> !TakesOut(candles, len, maxAge, k, true) && !TakesOut(candles, len, maxAge, k, false))
  {
    hide TakesOut;
    hide Swings;
    hide SweepsAt;
    var swings := Swings(candles, len, |candles| - len);
    LastOfSweeps(candles, maxAge, k, swings);
    hide Sweeps;
    forall s | s in swings && Sweeps(candles, maxAge, k, s) ensures TakesOut(candles, len, maxAge, k, !s.high) {
      SweepTakesOut(len, maxAge, candles, k, s);
    }
    forall low | TakesOut(candles, len, maxAge, k, low)
      ensures exists s :: s in swings && Sweeps(candles, maxAge, k, s)
    {
      var s := TakenOut(len, maxAge, candles, k, low);
    }
  }

  lemma SweepTakesOut(len: nat, maxAge: real, candles: seq<Candle>, k: nat, s: Swing)
    requires |candles| >= 2 * len + 2 && k < |candles| && s in Swings(candles, len, |candles| - len)
    requires Sweeps(candles, maxAge, k, s)
    ensures TakesOut(candles, len, maxAge, k, !s.high)
  {
    SwingsAreSwings(candles, len, |candles| - len, s);
    hide Swings;
    hide IsSwingHigh;
    hide IsSwingLow;
    var j: nat := s.index;
    assert len <= j < k && j + len < |candles| && (k - j) as real <= maxAge;
  }

  lemma TakenOut(len: nat, maxAge: real, candles: seq<Candle>, k: nat, low: bool) returns (s: Swing)
    requires |candles| >= 2 * len + 2 && k < |candles| && TakesOut(candles, len, maxAge, k, low)
    ensures s in Swings(candles, len, |candles| - len) && Sweeps(candles, maxAge, k, s)
  {
    hide Swings;
    hide IsSwingHigh;
    hide IsSwingLow;
    var j: nat :|
      && len <= j < k && j + len < |candles| && (k - j) as real <= maxAge
      && if low then IsSwingLow(candles, len, j) && candles[k].low < candles[j].low < candles[k].close
         else IsSwingHigh(candles, len, j) && candles[k].close < candles[j].high < candles[k].high;
    SwingsAreAll(candles, len, |candles| - len, j);
    s := Swing(j, if low then candles[j].low else candles[j].high, !low);
  }

  // ----- order blocks -----

  /**
   * The range of a bar with the gap before it: from the lowest to the highest of its prices and the close before.
   * The first bar has only its own.
   */
  lemma TrueRangeSpans(candles: seq<Candle>, i: nat)
    requires i < |candles| && candles[i].low <= candles[i].high
    ensures i == 0 ==> TrueRange(candles, i) == candles[0].high - candles[0].low
    ensures
      var c := candles[i];
      i > 0 ==>
        var before := candles[i - 1].close;
        TrueRange(candles, i)
        == (if before > c.high then before else c.high) - (if before < c.low then before else c.low)
  {
  }

  /** Bar `i` moves in this direction by the given multiple of the mean range of the last `period` bars. */
  predicate Impulse(candles: seq<Candle>, period: nat, minImpulse: real, i: nat, upwards: bool)
    requires 1 <= period <= i < |candles|
  {
    var move, ranges := candles[i].close - candles[i].open, RangeSum(candles, i + 1 - period, i + 1);
    && ranges != 0.0
    && (if upwards then move > 0.0 else move <= 0.0)
    && Abs(move) * period as real >= minImpulse * ranges
  }

  /** Candle `k` closes the other way, and is the last to do so before the impulse of bar `i` within the lookback. */
  ghost predicate MakesBlock(candles: seq<Candle>, period: nat, minImpulse: real, maxLookback: real, k: nat, i: nat,
                             upwards: bool)
    requires 1 <= period <= i < |candles| && k < i
  {
    && (if upwards then candles[k].close < candles[k].open else candles[k].close > candles[k].open)
    && (i - k) as real <= maxLookback
    && Impulse(candles, period, minImpulse, i, upwards)
    && forall j :: k < j < i ==>
         if upwards then candles[j].close >= candles[j].open else candles[j].close <= candles[j].open
  }

  ghost predicate BeforeImpulse(candles: seq<Candle>, period: nat, minImpulse: real, maxLookback: real, k: nat,
                                upwards: bool)
    requires 1 <= period && k < |candles|
  {
    exists i: nat :: period <= i < |candles| && k < i
                     && MakesBlock(candles, period, minImpulse, maxLookback, k, i, upwards)
  }

  lemma ImpulseIs(candles: seq<Candle>, period: nat, minImpulse: real, i: nat)
    requires 1 <= period <= i < |candles|
    ensures IsImpulse(candles, period, minImpulse, i)
      <==> Impulse(candles, period, minImpulse, i, candles[i].close > candles[i].open)
  {
    var sum, n := RangeSum(candles, i + 1 - period, i + 1), period as real;
    var mean := sum / n;
    assert mean * n == sum;
    hide RangeSum;
    ScaledMean(mean, n, sum, minImpulse);
    MulOrder(minImpulse * mean, Abs(candles[i].close - candles[i].open), n, minImpulse * sum,
             Abs(candles[i].close - candles[i].open) * n);
  }

  lemma ScaledMean(mean: real, n: real, sum: real, x: real)
    requires n > 0.0 && mean * n == sum
    ensures mean == 0.0 <==> sum == 0.0
    ensures x * mean * n == x * sum
  {
    assert x * mean * n == x * (mean * n);
  }

  /** The scan finds the last opposing candle within the lookback. */
  lemma {:induction false} OpposingIsLast(candles: seq<Candle>, maxLookback: real, i: nat, j: int, k: nat)
    requires j < i < |candles| && k <= j
    ensures OpposingFrom(candles, maxLookback, i, j) == Some(k)
      <==> (i - k) as real <= maxLookback && Opposes(candles, i, k)
           && forall x :: k < x <= j ==> !Opposes(candles, i, x)
    decreases j
  {
    hide Opposes;
    if k < j { OpposingIsLast(candles, maxLookback, i, j - 1, k); }
  }

  lemma MadeIsBefore(candles: seq<Candle>, period: nat, minImpulse: real, maxLookback: real, k: nat, up: bool)
    requires 1 <= period && k < |candles| && (up <==> candles[k].close < candles[k].open)
    ensures MadeBlock(candles, period, minImpulse, maxLookback, |candles|, k)
      <==> BeforeImpulse(candles, period, minImpulse, maxLookback, k, up)
  {
    hide MakesBlock;
    forall i: nat | period <= i < |candles| && k < i
      ensures BlockOfImpulse(candles, period, minImpulse, maxLookback, i) == Some(k)
        <==> MakesBlock(candles, period, minImpulse, maxLookback, k, i, up)
    {
      ImpulseMakesBlock(candles, period, minImpulse, maxLookback, k, i);
    }
    hide BlockOfImpulse;
  }

  lemma ImpulseMakesBlock(candles: seq<Candle>, period: nat, minImpulse: real, maxLookback: real, k: nat, i: nat)
    requires 1 <= period <= i < |candles| && k < i
    ensures BlockOfImpulse(candles, period, minImpulse, maxLookback, i) == Some(k)
      <==> MakesBlock(candles, period, minImpulse, maxLookback, k, i, candles[k].close < candles[k].open)
  {
    ImpulseIs(candles, period, minImpulse, i);
    OpposingIsLast(candles, maxLookback, i, i - 1, k);
    hide OpposingFrom;
    hide IsImpulse;
    hide RangeSum;
    var up := candles[i].close > candles[i].open;
    assert forall j | 0 <= j < i ::
      (Opposes(candles, i, j)
       <==> if up then candles[j].close < candles[j].open else candles[j].close > candles[j].open);
  }

  /** A bar of the order block series is what it says exactly if an impulse follows it: bullish, bearish, or neither. */
  lemma BlockSeriesMeans(period: nat, minImpulse: real, maxLookback: real, candles: seq<Candle>, k: nat)
    requires 1 <= period <= k < |candles|
    ensures At(OrderBlockSeries(period, minImpulse, maxLookback, candles), k) == Some(
      if BeforeImpulse(candles, period, minImpulse, maxLookback, k, true) then 1.0
      else if BeforeImpulse(candles, period, minImpulse, maxLookback, k, false) then -1.0 else 0.0)
  {
    BlockLastAt(candles, period, minImpulse, maxLookback, |candles|, k);
    MadeIsBefore(candles, period, minImpulse, maxLookback, k, candles[k].close < candles[k].open);
    hide Blocks;
    hide Emitted;
    hide MadeBlock;
    hide Impulse;
  }

  // ----- structure shifts -----

  /** The last two of the first `n` swings go this way. */
  predicate Going(swings: seq<Swing>, n: nat, upwards: bool) {
    2 <= n <= |swings| && if upwards then swings[n - 2].level < swings[n - 1].level
                          else swings[n - 1].level < swings[n - 2].level
  }

  /** Before bar `i` both the swing highs and the swing lows go this way. */
  predicate Trending(highs: seq<Swing>, lows: seq<Swing>, i: int, upwards: bool) {
    Going(highs, Behind(highs, i), upwards) && Going(lows, Behind(lows, i), upwards)
  }

  /** The bar closes beyond a swing behind it that no bar had broken. */
  ghost predicate Breaks(candles: seq<Candle>, swings: seq<Swing>, broken: set<nat>, i: nat, upwards: bool)
    requires i < |candles|
  {
    exists s :: s in swings && s.index < i && s.index !in broken
                && if upwards then candles[i].close > s.level else candles[i].close < s.level
  }

  /** What one bar adds: at most an upward and a downward break, doubled against the trend, each of a new swing. */
  lemma ShiftStepMeans(candles: seq<Candle>, highs: seq<Swing>, lows: seq<Swing>, i: nat, st: Shifts)
    requires i < |candles|
    ensures
      var next := ShiftStep(candles, highs, lows, i, st);
      && |next.marks| - |st.marks| == |next.broken| - |st.broken|
      && st.broken <= next.broken <= st.broken + Indices(highs) + Indices(lows)
      && |st.marks| <= |next.marks| <= |st.marks| + 2 && next.marks[..|st.marks|] == st.marks
      && forall k :: |st.marks| <= k < |next.marks| ==>
           && next.marks[k].index == i
           && ((&& next.marks[k].value == (if Trending(highs, lows, i, false) then 2.0 else 1.0)
                && Breaks(candles, highs, st.broken, i, true))
               || (&& next.marks[k].value == (if Trending(highs, lows, i, true) then -2.0 else -1.0)
                   && Breaks(candles, lows, st.broken, i, false)))
  {
    TrendMeans(highs, lows, i);
    hide TrendFrom;
    hide Trending;
    var up := LastUnbroken(highs, st.broken, i);
    var mid := if up.Some? && candles[i].close > up.value.level then st.broken + {up.value.index} else st.broken;
    var down := LastUnbroken(lows, mid, i);
    hide LastUnbroken;
    assert up.Some? ==> up.value in highs && up.value.index in Indices(highs);
    assert down.Some? ==> down.value in lows && down.value.index in Indices(lows) && down.value.index !in st.broken;
    if up.Some? && candles[i].close > up.value.level {
      assert Breaks(candles, highs, st.broken, i, true);
    }
    if down.Some? && candles[i].close < down.value.level {
      assert Breaks(candles, lows, st.broken, i, false);
    }
    hide Breaks;
    hide Indices;
  }

  ghost function Indices(swings: seq<Swing>): set<nat> {
    set s | s in swings :: s.index
  }

  lemma TrendMeans(highs: seq<Swing>, lows: seq<Swing>, i: int)
    ensures
      var trend := TrendFrom(highs, lows, Behind(highs, i), Behind(lows, i));
      (trend == Up <==> Trending(highs, lows, i, true)) && (trend == Down <==> Trending(highs, lows, i, false))
  {
    hide Behind;
  }

  /** Over a whole run as many breaks are reported as swings are broken, so none twice. */
  lemma {:induction false} ReportsAreBreaks(candles: seq<Candle>, highs: seq<Swing>, lows: seq<Swing>, a: nat, b: nat)
    requires b <= |candles|
    ensures
      var st := ShiftsTo(candles, highs, lows, a, b);
      |st.marks| == |st.broken| && st.broken <= Indices(highs) + Indices(lows)
    decreases b
  {
    hide ShiftStep;
    hide Indices;
    if b > a {
      ReportsAreBreaks(candles, highs, lows, a, b - 1);
      ShiftStepMeans(candles, highs, lows, b - 1, ShiftsTo(candles, highs, lows, a, b - 1));
    }
  }
}
