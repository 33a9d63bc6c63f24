/** The four pattern detectors and the indicator series made from their findings (`runtime/patternEngine.ts`). */
module Patterns {
  import opened Wrappers
  import opened Market
  import opened Reals
  import opened Ema

  /** A detection: the bar it is recorded at, and the value the series shows there. */
  datatype Mark = Mark(index: nat, value: real)

  ghost predicate InBounds(marks: seq<Mark>, n: nat) {
    forall k :: 0 <= k < |marks| ==> marks[k].index < n
  }

  /** Nothing known on the first bars, and no signal after them. */
  function WarmUp(warm: nat, n: nat): Series {
    seq(n, i => if i < warm then None else Some(0.0))
  }

  function Nothing(n: nat): Series {
    seq(n, _ => None)
  }

  /** The last mark at a bar, if there is one. */
  function LastAt(marks: seq<Mark>, i: int): Option<real> {
    if marks == [] then None
    else if marks[|marks| - 1].index == i then Some(marks[|marks| - 1].value)
    else LastAt(marks[..|marks| - 1], i)
  }

  /** A base series overwritten by marks; where several fall on one bar the last wins. */
  function Marked(base: Series, marks: seq<Mark>): Series {
    seq(|base|, i requires 0 <= i < |base| => var last := LastAt(marks, i); if last.Some? then last else base[i])
  }

  method MarkSeries(base: Series, marks: seq<Mark>) returns (result: array<Option<real>>)
    requires InBounds(marks, |base|)
    ensures result[..] == Marked(base, marks)
  {
    result := new Option<real>[|base|](i requires 0 <= i < |base| => base[i]);
    for k := 0 to |marks|
      invariant result[..] == Marked(base, marks[..k])
    {
      assert marks[..k + 1][..k] == marks[..k];
      result[marks[k].index] := Some(marks[k].value);
    }
    assert marks[..|marks|] == marks;
  }

  lemma LastAtAppend(a: seq<Mark>, b: seq<Mark>, i: int)
    ensures LastAt(a + b, i) == if LastAt(b, i).Some? then LastAt(b, i) else LastAt(a, i)
    decreases |b|
  {
    if b == [] {
      assert a + b == a;
    } else {
      LastAtAppend(a, b[..|b| - 1], i);
      assert (a + b)[..|a + b| - 1] == a + b[..|b| - 1];
    }
  }

  // ----- fair value gaps -----

  predicate GapCounts(ratio: real, gap: real, middle: Candle) {
    var body := Abs(middle.close - middle.open);
    ratio == 0.0 || body == 0.0 || gap / body >= ratio
  }

  predicate BullishGap(ratio: real, candles: seq<Candle>, i: nat)
    requires 2 <= i < |candles|
  {
    && candles[i - 2].high < candles[i].low
    && GapCounts(ratio, candles[i].low - candles[i - 2].high, candles[i - 1])
  }

  predicate BearishGap(ratio: real, candles: seq<Candle>, i: nat)
    requires 2 <= i < |candles|
  {
    && candles[i - 2].low > candles[i].high
    && GapCounts(ratio, candles[i - 2].low - candles[i].high, candles[i - 1])
  }

  /** The gaps candle `i` closes, recorded at the candle before it. */
  function GapMarks(ratio: real, candles: seq<Candle>, i: nat): seq<Mark>
    requires 2 <= i < |candles|
  {
    (if BullishGap(ratio, candles, i) then [Mark(i - 1, 1.0)] else [])
    + (if BearishGap(ratio, candles, i) then [Mark(i - 1, -1.0)] else [])
  }

  /** The gaps closed by the first `n` candles. */
  function Gaps(ratio: real, candles: seq<Candle>, n: nat): (marks: seq<Mark>)
    requires n <= |candles|
    ensures InBounds(marks, n)
  {
    if n <= 2 then [] else Gaps(ratio, candles, n - 1) + GapMarks(ratio, candles, n - 1)
  }

  method DetectFairValueGaps(candles: seq<Candle>, ratio: real) returns (results: seq<Mark>)
    ensures results == Gaps(ratio, candles, |candles|)
  {
    results := [];
    if |candles| < 3 { return; }
    for i := 2 to |candles|
      invariant results == Gaps(ratio, candles, i)
    {
      var first, middle, third := candles[i - 2], candles[i - 1], candles[i];
      var body := Abs(middle.close - middle.open);
      if first.high < third.low {
        var gap := third.low - first.high;
        if ratio == 0.0 || body == 0.0 || gap / body >= ratio { results := results + [Mark(i - 1, 1.0)]; }
      }
      if first.low > third.high {
        var gap := first.low - third.high;
        if ratio == 0.0 || body == 0.0 || gap / body >= ratio { results := results + [Mark(i - 1, -1.0)]; }
      }
    }
  }

  function FvgSeries(ratio: real, candles: seq<Candle>): Series {
    var n := |candles|;
    if n < 3 then Nothing(n) else Marked(WarmUp(2, n), Gaps(ratio, candles, n))
  }

  method ComputeFvgSeries(candles: seq<Candle>, ratio: real) returns (result: array<Option<real>>)
    ensures result[..] == FvgSeries(ratio, candles)
  {
    var n := |candles|;
    if n < 3 {
      result := new Option<real>[n](_ => None);
      return;
    }
    var gaps := DetectFairValueGaps(candles, ratio);
    result := MarkSeries(WarmUp(2, n), gaps);
  }

  // ----- swing points -----

  datatype Swing = Swing(index: nat, level: real, high: bool)

  predicate Tops(candles: seq<Candle>, i: nat, j: nat)
    requires j <= i && i + j < |candles|
  {
    candles[i].high > candles[i - j].high && candles[i].high > candles[i + j].high
  }

  predicate Bottoms(candles: seq<Candle>, i: nat, j: nat)
    requires j <= i && i + j < |candles|
  {
    candles[i].low < candles[i - j].low && candles[i].low < candles[i + j].low
  }

  predicate IsSwingHigh(candles: seq<Candle>, len: nat, i: nat)
    requires len <= i && i + len < |candles|
  {
    forall j | 1 <= j <= len :: Tops(candles, i, j)
  }

  predicate IsSwingLow(candles: seq<Candle>, len: nat, i: nat)
    requires len <= i && i + len < |candles|
  {
    forall j | 1 <= j <= len :: Bottoms(candles, i, j)
  }

  function SwingsAt(candles: seq<Candle>, len: nat, i: nat): seq<Swing>
    requires len <= i && i + len < |candles|
  {
    (if IsSwingHigh(candles, len, i) then [Swing(i, candles[i].high, true)] else [])
    + (if IsSwingLow(candles, len, i) then [Swing(i, candles[i].low, false)] else [])
  }

  /** The swing points before bar `b`. */
  function Swings(candles: seq<Candle>, len: nat, b: int): (swings: seq<Swing>)
    requires b + len <= |candles|
    ensures forall k :: 0 <= k < |swings| ==> len <= swings[k].index < b
    ensures forall j, k :: 0 <= j < k < |swings| ==> swings[j].index <= swings[k].index
    decreases b
  {
    if b <= len then [] else Swings(candles, len, b - 1) + SwingsAt(candles, len, b - 1)
  }

  method FindSwingPoints(candles: seq<Candle>, len: nat) returns (swings: seq<Swing>)
    ensures swings == Swings(candles, len, |candles| - len)
  {
    hide SwingsAt;
    swings := [];
    var i := len;
    while i < |candles| - len
      invariant len <= i && (i <= |candles| - len || i == len)
      invariant i <= |candles| - len ==> swings == Swings(candles, len, i)
      invariant i > |candles| - len ==> swings == []
    {
      swings := SwingBar(candles, len, i, swings);
      i := i + 1;
    }
  }

  /** One bar: at most a high and then at most a low. */
  method SwingBar(candles: seq<Candle>, len: nat, i: nat, found: seq<Swing>) returns (swings: seq<Swing>)
    requires len <= i && i + len < |candles|
    ensures swings == found + SwingsAt(candles, len, i)
  {
    hide IsSwingHigh;
    hide IsSwingLow;
    swings := found;
    var isSwingHigh, isSwingLow := ClassifySwing(candles, len, i);
    if isSwingHigh { swings := swings + [Swing(i, candles[i].high, true)]; }
    if isSwingLow { swings := swings + [Swing(i, candles[i].low, false)]; }
  }

  /** The comparison with the neighbours, given up once neither kind is possible. */
  method ClassifySwing(candles: seq<Candle>, len: nat, i: nat) returns (isSwingHigh: bool, isSwingLow: bool)
    requires len <= i && i + len < |candles|
    ensures isSwingHigh <==> IsSwingHigh(candles, len, i)
    ensures isSwingLow <==> IsSwingLow(candles, len, i)
  {
    isSwingHigh, isSwingLow := true, true;
    var c := candles[i];
    for j := 1 to len + 1
      invariant isSwingHigh <==> forall k | 1 <= k < j :: Tops(candles, i, k)
      invariant isSwingLow <==> forall k | 1 <= k < j :: Bottoms(candles, i, k)
    {
      assert Tops(candles, i, j) <==> c.high > candles[i - j].high && c.high > candles[i + j].high;
      assert Bottoms(candles, i, j) <==> c.low < candles[i - j].low && c.low < candles[i + j].low;
      if c.high <= candles[i - j].high || c.high <= candles[i + j].high { isSwingHigh := false; }
      if c.low >= candles[i - j].low || c.low >= candles[i + j].low { isSwingLow := false; }
      if !isSwingHigh && !isSwingLow { break; }
    }
  }

  // ----- liquidity sweeps -----

  /** Candle `i` sweeps the swing: its wick passes the level and its close comes back. */
  predicate Swept(candles: seq<Candle>, i: nat, s: Swing)
    requires i < |candles|
  {
    if s.high then candles[i].high > s.level && candles[i].close < s.level
    else candles[i].low < s.level && candles[i].close > s.level
  }

  function SweepMark(i: nat, s: Swing): Mark {
    Mark(i, if s.high then -1.0 else 1.0)
  }

  predicate Sweeps(candles: seq<Candle>, maxAge: real, i: nat, s: Swing)
    requires i < |candles|
  {
    s.index < i && (i - s.index) as real <= maxAge && Swept(candles, i, s)
  }

  /** The sweeps of bar `i` over the given swings, in order. */
  function SweepsAt(candles: seq<Candle>, maxAge: real, i: nat, swings: seq<Swing>): (marks: seq<Mark>)
    requires i < |candles|
    ensures forall k :: 0 <= k < |marks| ==> marks[k].index == i
  {
    if swings == [] then []
    else
      var s := swings[|swings| - 1];
      SweepsAt(candles, maxAge, i, swings[..|swings| - 1])
      + if Sweeps(candles, maxAge, i, s) then [SweepMark(i, s)] else []
  }

  /** The sweeps of the bars before `b`, from the first that can have a swing behind it. */
  function SweepsTo(candles: seq<Candle>, len: nat, maxAge: real, swings: seq<Swing>, b: int): (marks: seq<Mark>)
    requires b <= |candles|
    ensures InBounds(marks, |candles|)
    decreases b
  {
    if b <= len + 1 then []
    else SweepsTo(candles, len, maxAge, swings, b - 1) + SweepsAt(candles, maxAge, b - 1, swings)
  }

  method DetectLiquiditySweeps(candles: seq<Candle>, len: nat, maxAge: real) returns (results: seq<Mark>)
    requires |candles| >= 2 * len + 2
    ensures results == SweepsTo(candles, len, maxAge, Swings(candles, len, |candles| - len), |candles|)
  {
    hide Swings;
    hide SweepsAt;
    results := [];
    var swings := FindSwingPoints(candles, len);
    for i := len + 1 to |candles|
      invariant results == SweepsTo(candles, len, maxAge, swings, i)
    {
      var marks := SweepBar(candles, maxAge, i, swings);
      results := results + marks;
    }
  }

  /** One bar against the swings, stopping at the first that is not behind it. */
  method SweepBar(candles: seq<Candle>, maxAge: real, i: nat, swings: seq<Swing>) returns (marks: seq<Mark>)
    requires i < |candles|
    requires forall j, k :: 0 <= j < k < |swings| ==> swings[j].index <= swings[k].index
    ensures marks == SweepsAt(candles, maxAge, i, swings)
  {
    marks := [];
    var candle := candles[i];
    for k := 0 to |swings|
      invariant marks == SweepsAt(candles, maxAge, i, swings[..k])
    {
      assert swings[..k + 1][..k] == swings[..k];
      var swing := swings[k];
      if swing.index >= i {
        NothingBehind(candles, maxAge, i, swings, k);
        return;
      }
      if (i - swing.index) as real > maxAge { continue; }
      if !swing.high {
        if candle.low < swing.level && candle.close > swing.level { marks := marks + [Mark(i, 1.0)]; }
      } else {
        if candle.high > swing.level && candle.close < swing.level { marks := marks + [Mark(i, -1.0)]; }
      }
    }
    assert swings[..|swings|] == swings;
  }

  lemma {:induction false} NothingBehind(candles: seq<Candle>, maxAge: real, i: nat, swings: seq<Swing>, k: nat)
    requires i < |candles| && k <= |swings|
    requires forall j :: k <= j < |swings| ==> !Sweeps(candles, maxAge, i, swings[j])
    ensures SweepsAt(candles, maxAge, i, swings) == SweepsAt(candles, maxAge, i, swings[..k])
    decreases |swings|
  {
    if k == |swings| {
      assert swings[..k] == swings;
    } else {
      NothingBehind(candles, maxAge, i, swings[..|swings| - 1], k);
      assert swings[..|swings| - 1][..k] == swings[..k];
    }
  }

  function SweepSeries(len: nat, maxAge: real, candles: seq<Candle>): Series {
    var n := |candles|;
    if n < 2 * len + 2 then Nothing(n)
    else Marked(WarmUp(len, n), SweepsTo(candles, len, maxAge, Swings(candles, len, n - len), n))
  }

  method ComputeSweepSeries(candles: seq<Candle>, len: nat, maxAge: real) returns (result: array<Option<real>>)
    ensures result[..] == SweepSeries(len, maxAge, candles)
  {
    var n := |candles|;
    if n < 2 * len + 2 {
      result := new Option<real>[n](_ => None);
      return;
    }
    var sweeps := DetectLiquiditySweeps(candles, len, maxAge);
    result := MarkSeries(WarmUp(len, n), sweeps);
  }

  // ----- order blocks -----

  function TrueRange(candles: seq<Candle>, i: nat): real
    requires i < |candles|
  {
    var c := candles[i];
    if i == 0 then c.high - c.low
    else
      var pc := candles[i - 1].close;
      Max(c.high - c.low, Max(Abs(c.high - pc), Abs(c.low - pc)))
  }

  /** Sum of the true ranges from bar `a` up to, but not including, bar `b`. */
  function RangeSum(candles: seq<Candle>, a: nat, b: nat): real
    requires a <= b <= |candles|
  {
    if a == b then 0.0 else RangeSum(candles, a, b - 1) + TrueRange(candles, b - 1)
  }

  lemma {:induction false} SlideWindow(candles: seq<Candle>, a: nat, b: nat)
    requires a < b <= |candles|
    ensures RangeSum(candles, a + 1, b) == RangeSum(candles, a, b) - TrueRange(candles, a)
    decreases b
  {
    if a + 1 < b {
      SlideWindow(candles, a, b - 1);
    }
  }

  function Body(c: Candle): real {
    c.close - c.open
  }

  /** Bar `i` moves by at least the given multiple of the mean true range of the last `period` bars. */
  predicate IsImpulse(candles: seq<Candle>, period: nat, minImpulse: real, i: nat)
    requires 1 <= period <= i < |candles|
  {
    var atr := RangeSum(candles, i + 1 - period, i + 1) / period as real;
    atr != 0.0 && Abs(Body(candles[i])) >= minImpulse * atr
  }

  predicate Opposes(candles: seq<Candle>, i: nat, j: nat)
    requires j < i < |candles|
  {
    if Body(candles[i]) > 0.0 then Body(candles[j]) < 0.0 else Body(candles[j]) > 0.0
  }

  /** The last opposing candle before `j + 1` within the lookback of bar `i`. */
  function OpposingFrom(candles: seq<Candle>, maxLookback: real, i: nat, j: int): (r: Option<nat>)
    requires j < i < |candles|
    ensures r.Some? ==> r.value <= j && (i as real - maxLookback <= r.value as real) && Opposes(candles, i, r.value)
    decreases j + 1
  {
    if j < 0 || (j as real) < i as real - maxLookback then None
    else if Opposes(candles, i, j) then Some(j)
    else OpposingFrom(candles, maxLookback, i, j - 1)
  }

  /** The candle bar `i` makes an order block, if it is an impulse. */
  function BlockOfImpulse(candles: seq<Candle>, period: nat, minImpulse: real, maxLookback: real, i: nat)
    : (r: Option<nat>)
    requires 1 <= period <= i < |candles|
    ensures r.Some? ==> r.value < i && i as real - maxLookback <= r.value as real
  {
    if IsImpulse(candles, period, minImpulse, i) then OpposingFrom(candles, maxLookback, i, i - 1) else None
  }

  predicate Emitted(marks: seq<Mark>, j: nat) {
    exists k :: 0 <= k < |marks| && marks[k].index == j
  }

  /** A block is recorded once; a bearish candle is a bullish block and the other way round. */
  function WithBlock(candles: seq<Candle>, marks: seq<Mark>, block: Option<nat>): seq<Mark>
    requires block.Some? ==> block.value < |candles|
  {
    if block == None || Emitted(marks, block.value) then marks
    else marks + [Mark(block.value, if Body(candles[block.value]) < 0.0 then 1.0 else -1.0)]
  }

  function Blocks(candles: seq<Candle>, period: nat, minImpulse: real, maxLookback: real, b: nat): (marks: seq<Mark>)
    requires 1 <= period && b <= |candles|
    ensures InBounds(marks, |candles|)
    decreases b
  {
    if b <= period then []
    else
      WithBlock(candles, Blocks(candles, period, minImpulse, maxLookback, b - 1),
                BlockOfImpulse(candles, period, minImpulse, maxLookback, b - 1))
  }

  method DetectOrderBlocks(candles: seq<Candle>, period: nat, minImpulse: real, maxLookback: real)
    returns (results: seq<Mark>)
    requires 1 <= period < |candles|
    ensures results == Blocks(candles, period, minImpulse, maxLookback, |candles|)
  {
    hide TrueRange;
    hide BlockOfImpulse;
    hide WithBlock;
    results := [];
    var trSum := 0.0;
    for i := 0 to period
      invariant trSum == RangeSum(candles, 0, i)
    {
      trSum := trSum + TrueRange(candles, i);
    }
    for i := period to |candles|
      invariant trSum == RangeSum(candles, i - period, i)
      invariant results == Blocks(candles, period, minImpulse, maxLookback, i)
    {
      SlideWindow(candles, i - period, i + 1);
      trSum := trSum + TrueRange(candles, i) - TrueRange(candles, i - period);
      results := BlockBar(candles, period, minImpulse, maxLookback, i, trSum / period as real, results);
    }
  }

  /** One bar: if it is an impulse, the block it makes, unless that is recorded already. */
  method BlockBar(candles: seq<Candle>, period: nat, minImpulse: real, maxLookback: real, i: nat, atr: real,
                  marks: seq<Mark>)
    returns (results: seq<Mark>)
    requires 1 <= period <= i < |candles| && atr == RangeSum(candles, i + 1 - period, i + 1) / period as real
    ensures results == WithBlock(candles, marks, BlockOfImpulse(candles, period, minImpulse, maxLookback, i))
  {
    results := marks;
    if atr != 0.0 && Abs(Body(candles[i])) >= minImpulse * atr {
      var block := FindBlock(candles, maxLookback, i);
      if block.Some? && !Emitted(results, block.value) {
        var value := if Body(candles[i]) > 0.0 then 1.0 else -1.0;
        results := results + [Mark(block.value, value)];
      }
    }
  }

  /** The backward scan for the last opposing candle. */
  method FindBlock(candles: seq<Candle>, maxLookback: real, i: nat) returns (block: Option<nat>)
    requires i < |candles|
    ensures block == OpposingFrom(candles, maxLookback, i, i - 1)
  {
    var j := i - 1;
    while j >= 0 && j as real >= i as real - maxLookback
      invariant -1 <= j < i
      invariant OpposingFrom(candles, maxLookback, i, i - 1) == OpposingFrom(candles, maxLookback, i, j)
    {
      if Opposes(candles, i, j) { return Some(j); }
      j := j - 1;
    }
    block := None;
  }

  function OrderBlockSeries(period: nat, minImpulse: real, maxLookback: real, candles: seq<Candle>): Series
    requires 1 <= period
  {
    var n := |candles|;
    if n < period + 1 then Nothing(n)
    else Marked(WarmUp(period, n), Blocks(candles, period, minImpulse, maxLookback, n))
  }

  method ComputeOrderBlockSeries(candles: seq<Candle>, period: nat, minImpulse: real, maxLookback: real)
    returns (result: array<Option<real>>)
    requires 1 <= period
    ensures result[..] == OrderBlockSeries(period, minImpulse, maxLookback, candles)
  {
    var n := |candles|;
    if n < period + 1 {
      result := new Option<real>[n](_ => None);
      return;
    }
    var blocks := DetectOrderBlocks(candles, period, minImpulse, maxLookback);
    result := MarkSeries(WarmUp(period, n), blocks);
  }

  // ----- market structure shifts -----

  datatype Trend = Up | Down | NoTrend

  function OfKind(swings: seq<Swing>, high: bool): (r: seq<Swing>)
    ensures forall k :: 0 <= k < |r| ==> r[k] in swings && r[k].high == high
  {
    if swings == [] then []
    else
      var last := swings[|swings| - 1];
      OfKind(swings[..|swings| - 1], high) + if last.high == high then [last] else []
  }

  /** Number of swings, oldest first, that lie before bar `i`. */
  function Behind(swings: seq<Swing>, i: int): (n: nat)
    ensures n <= |swings|
  {
    if swings == [] then 0
    else if swings[|swings| - 1].index < i then |swings|
    else Behind(swings[..|swings| - 1], i)
  }

  function TrendFrom(highs: seq<Swing>, lows: seq<Swing>, h: nat, l: nat): Trend
    requires h <= |highs| && l <= |lows|
  {
    if h < 2 || l < 2 then NoTrend
    else if highs[h - 1].level > highs[h - 2].level && lows[l - 1].level > lows[l - 2].level then Up
    else if highs[h - 1].level < highs[h - 2].level && lows[l - 1].level < lows[l - 2].level then Down
    else NoTrend
  }

  /** The most recent swing before bar `i` that has not been broken. */
  function LastUnbroken(swings: seq<Swing>, broken: set<nat>, i: int): (r: Option<Swing>)
    ensures r.Some? ==> r.value in swings && r.value.index < i && r.value.index !in broken
  {
    if swings == [] then None
    else
      var last := swings[|swings| - 1];
      if last.index < i && last.index !in broken then Some(last)
      else LastUnbroken(swings[..|swings| - 1], broken, i)
  }

  datatype Shifts = Shifts(broken: set<nat>, marks: seq<Mark>)

  /** One bar: at most a bullish break and then at most a bearish one. */
  function ShiftStep(candles: seq<Candle>, highs: seq<Swing>, lows: seq<Swing>, i: nat, st: Shifts): Shifts
    requires i < |candles|
  {
    var trend := TrendFrom(highs, lows, Behind(highs, i), Behind(lows, i));
    var up := LastUnbroken(highs, st.broken, i);
    var mid :=
      if up.Some? && candles[i].close > up.value.level
      then Shifts(st.broken + {up.value.index}, st.marks + [Mark(i, if trend == Down then 2.0 else 1.0)])
      else st;
    var down := LastUnbroken(lows, mid.broken, i);
    if down.Some? && candles[i].close < down.value.level
    then Shifts(mid.broken + {down.value.index}, mid.marks + [Mark(i, if trend == Up then -2.0 else -1.0)])
    else mid
  }

  /** The state after the bars from `a` up to, but not including, `b`. */
  function ShiftsTo(candles: seq<Candle>, highs: seq<Swing>, lows: seq<Swing>, a: nat, b: nat): (st: Shifts)
    requires b <= |candles|
    ensures InBounds(st.marks, |candles|)
    decreases b
  {
    if b <= a then Shifts({}, []) else ShiftStep(candles, highs, lows, b - 1, ShiftsTo(candles, highs, lows, a, b - 1))
  }

  function ShiftMarks(candles: seq<Candle>, len: nat): (marks: seq<Mark>)
    requires |candles| >= 2 * len + 2
    ensures InBounds(marks, |candles|)
  {
    var swings := Swings(candles, len, |candles| - len);
    if |swings| < 2 then []
    else
      ShiftsTo(candles, OfKind(swings, true), OfKind(swings, false), swings[0].index + len + 1, |candles|).marks
  }

  method SelectKind(swings: seq<Swing>, high: bool) returns (r: seq<Swing>)
    ensures r == OfKind(swings, high)
  {
    r := [];
    for k := 0 to |swings|
      invariant r == OfKind(swings[..k], high)
    {
      assert swings[..k + 1][..k] == swings[..k];
      if swings[k].high == high { r := r + [swings[k]]; }
    }
    assert swings[..|swings|] == swings;
  }

  ghost predicate Ordered(swings: seq<Swing>) {
    forall j, k :: 0 <= j < k < |swings| ==> swings[j].index <= swings[k].index
  }

  lemma {:induction false} KindsOrdered(swings: seq<Swing>, high: bool)
    requires Ordered(swings)
    ensures Ordered(OfKind(swings, high))
  {
    if swings != [] {
      KindsOrdered(swings[..|swings| - 1], high);
    }
  }

  /** In ordered swings the number behind a bar is where the first not behind it stands. */
  lemma {:induction false} BehindIs(swings: seq<Swing>, i: int, n: nat)
    requires Ordered(swings) && n <= |swings|
    requires n > 0 ==> swings[n - 1].index < i
    requires n < |swings| ==> swings[n].index >= i
    ensures Behind(swings, i) == n
    decreases |swings|
  {
    if n < |swings| {
      assert swings[|swings| - 1].index >= i;
      BehindIs(swings[..|swings| - 1], i, n);
    }
  }

  /** Moves the count of swings behind the bar on to bar `i`. */
  method Advance(swings: seq<Swing>, from: nat, i: int) returns (n: nat)
    requires Ordered(swings) && from <= |swings| && (from > 0 ==> swings[from - 1].index < i)
    ensures n == Behind(swings, i) && n <= |swings| && (n > 0 ==> swings[n - 1].index < i)
  {
    n := from;
    while n < |swings| && swings[n].index < i
      invariant n <= |swings| && (n > 0 ==> swings[n - 1].index < i)
    {
      n := n + 1;
    }
    BehindIs(swings, i, n);
  }

  /** The scan from the latest swing, skipping those not behind the bar and those already broken. */
  method FindUnbroken(swings: seq<Swing>, broken: set<nat>, i: int) returns (r: Option<Swing>)
    ensures r == LastUnbroken(swings, broken, i)
  {
    var k := |swings|;
    assert swings[..k] == swings;
    while k > 0
      invariant 0 <= k <= |swings|
      invariant LastUnbroken(swings, broken, i) == LastUnbroken(swings[..k], broken, i)
    {
      assert swings[..k][..k - 1] == swings[..k - 1];
      var swing := swings[k - 1];
      if swing.index < i && swing.index !in broken { return Some(swing); }
      k := k - 1;
    }
    r := None;
  }

  method DetectMarketStructureShifts(candles: seq<Candle>, len: nat) returns (results: seq<Mark>)
    requires |candles| >= 2 * len + 2
    ensures results == ShiftMarks(candles, len)
  {
    hide Swings;
    hide ShiftStep;
    hide Behind;
    hide OfKind;
    results := [];
    var swings := FindSwingPoints(candles, len);
    if |swings| < 2 { return; }
    var highs := SelectKind(swings, true);
    var lows := SelectKind(swings, false);
    KindsOrdered(swings, true);
    KindsOrdered(swings, false);
    var start: nat := swings[0].index + len + 1;
    var highPtr: nat, lowPtr: nat, broken: set<nat> := 0, 0, {};
    for i := start to |candles|
      invariant highPtr <= |highs| && (highPtr > 0 ==> highs[highPtr - 1].index < i)
      invariant lowPtr <= |lows| && (lowPtr > 0 ==> lows[lowPtr - 1].index < i)
      invariant Shifts(broken, results) == ShiftsTo(candles, highs, lows, start, i)
    {
      highPtr := Advance(highs, highPtr, i);
      lowPtr := Advance(lows, lowPtr, i);
      broken, results := ShiftBar(candles, highs, lows, i, highPtr, lowPtr, broken, results);
    }
  }

  /** One bar's breaks, given the swings confirmed before it. */
  method ShiftBar(candles: seq<Candle>, highs: seq<Swing>, lows: seq<Swing>, i: nat, highPtr: nat, lowPtr: nat,
                  broken: set<nat>, marks: seq<Mark>)
    returns (stillBroken: set<nat>, results: seq<Mark>)
    requires i < |candles| && highPtr == Behind(highs, i) && lowPtr == Behind(lows, i)
    ensures Shifts(stillBroken, results) == ShiftStep(candles, highs, lows, i, Shifts(broken, marks))
  {
    stillBroken, results := broken, marks;
    var trend := TrendFrom(highs, lows, highPtr, lowPtr);
    var up := FindUnbroken(highs, stillBroken, i);
    if up.Some? && candles[i].close > up.value.level {
      results := results + [Mark(i, if trend == Down then 2.0 else 1.0)];
      stillBroken := stillBroken + {up.value.index};
    }
    var down := FindUnbroken(lows, stillBroken, i);
    if down.Some? && candles[i].close < down.value.level {
      results := results + [Mark(i, if trend == Up then -2.0 else -1.0)];
      stillBroken := stillBroken + {down.value.index};
    }
  }

  function ShiftSeries(len: nat, candles: seq<Candle>): Series {
    var n := |candles|;
    if n < 2 * len + 2 then Nothing(n) else Marked(WarmUp(len, n), ShiftMarks(candles, len))
  }

  method ComputeShiftSeries(candles: seq<Candle>, len: nat) returns (result: array<Option<real>>)
    ensures result[..] == ShiftSeries(len, candles)
  {
    var n := |candles|;
    if n < 2 * len + 2 {
      result := new Option<real>[n](_ => None);
      return;
    }
    var shifts := DetectMarketStructureShifts(candles, len);
    result := MarkSeries(WarmUp(len, n), shifts);
  }
}
