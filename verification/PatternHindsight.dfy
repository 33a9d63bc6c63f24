/** Which values of the pattern series depend on later candles. */
module PatternHindsight {
  import opened Wrappers
  import opened Market
  import opened Indicators
  import opened Patterns

  // ----- fair value gaps: one bar -----

  /** What the gap closed by candle `i` leaves in the series: a bearish gap overwrites a bullish one. */
  function GapValue(ratio: real, candles: seq<Candle>, i: nat): Option<real>
    requires 2 <= i < |candles|
  {
    if BearishGap(ratio, candles, i) then Some(-1.0) else if BullishGap(ratio, candles, i) then Some(1.0) else None
  }

  lemma {:induction false} GapLastAt(ratio: real, candles: seq<Candle>, n: nat, k: nat)
    requires n <= |candles|
    ensures LastAt(Gaps(ratio, candles, n), k) == if 1 <= k && k + 1 < n then GapValue(ratio, candles, k + 1) else None
  {
    hide GapCounts;
    if n > 2 {
      GapLastAt(ratio, candles, n - 1, k);
      LastAtAppend(Gaps(ratio, candles, n - 1), GapMarks(ratio, candles, n - 1), k);
      GapMarksLast(ratio, candles, n - 1, k);
    }
  }

  lemma GapMarksLast(ratio: real, candles: seq<Candle>, i: nat, k: nat)
    requires 2 <= i < |candles|
    ensures LastAt(GapMarks(ratio, candles, i), k) == if k + 1 == i then GapValue(ratio, candles, i) else None
  {
    hide BullishGap;
    hide BearishGap;
    var marks := GapMarks(ratio, candles, i);
    if k + 1 != i {
      NoneElsewhere(marks, i - 1, k);
    }
  }

  /** The series at bar `k`. */
  lemma GapSeriesAt(ratio: real, candles: seq<Candle>, k: nat)
    requires k < |candles|
    ensures At(FvgSeries(ratio, candles), k) ==
      if 1 <= k && k + 1 < |candles| && GapValue(ratio, candles, k + 1).Some? then GapValue(ratio, candles, k + 1)
      else if k < 2 then None
      else Some(0.0)
  {
    hide GapValue;
    GapLastAt(ratio, candles, |candles|, k);
  }

  /** A bar reads the same on a prefix exactly unless it is the last there and the next candle closes a gap over it. */
  lemma GapHindsightExactly(ratio: real, candles: seq<Candle>, m: nat, k: nat)
    requires k < m <= |candles|
    ensures At(FvgSeries(ratio, candles[..m]), k) == At(FvgSeries(ratio, candles), k)
      <==> !(k + 1 == m < |candles| && k >= 1 && GapValue(ratio, candles, m).Some?)
  {
    hide FvgSeries;
    hide At;
    GapSeriesAt(ratio, candles, k);
    GapSeriesAt(ratio, candles[..m], k);
    assert k + 1 < m && 1 <= k ==> GapValue(ratio, candles[..m], k + 1) == GapValue(ratio, candles, k + 1);
  }

  // ----- liquidity sweeps: the warm-up only -----

  lemma {:induction false} SwingsAreSwings(candles: seq<Candle>, len: nat, b: int, s: Swing)
    requires b + len <= |candles| && s in Swings(candles, len, b)
    ensures len <= s.index < b
    ensures s.high ==> IsSwingHigh(candles, len, s.index) && s.level == candles[s.index].high
    ensures !s.high ==> IsSwingLow(candles, len, s.index) && s.level == candles[s.index].low
    decreases b
  {
    hide IsSwingHigh;
    hide IsSwingLow;
    if s !in SwingsAt(candles, len, b - 1) {
      SwingsAreSwings(candles, len, b - 1, s);
    }
  }

  /** Within its confirmation window no candle sweeps a swing: the window is what keeps the wick inside. */
  lemma NoYoungSweep(candles: seq<Candle>, len: nat, b: int, s: Swing, i: nat)
    requires b + len <= |candles| && s in Swings(candles, len, b)
    requires s.index < i <= s.index + len && i < |candles|
    ensures !Swept(candles, i, s)
  {
    SwingsAreSwings(candles, len, b, s);
    var j := i - s.index;
    assert s.high ==> Tops(candles, s.index, j);
    assert !s.high ==> Bottoms(candles, s.index, j);
  }

  lemma {:induction false} SwingsOfPrefix(candles: seq<Candle>, len: nat, m: nat, b: int)
    requires m <= |candles| && b + len <= m
    ensures Swings(candles[..m], len, b) == Swings(candles, len, b)
    decreases b
  {
    if b > len {
      hide IsSwingHigh;
      hide IsSwingLow;
      SwingsOfPrefix(candles, len, m, b - 1);
      SwingOfPrefix(candles, len, m, b - 1);
    }
  }

  lemma SwingOfPrefix(candles: seq<Candle>, len: nat, m: nat, i: nat)
    requires len <= i && i + len < m <= |candles|
    ensures IsSwingHigh(candles[..m], len, i) <==> IsSwingHigh(candles, len, i)
    ensures IsSwingLow(candles[..m], len, i) <==> IsSwingLow(candles, len, i)
  {
    assert forall j | 1 <= j <= len :: Tops(candles[..m], i, j) <==> Tops(candles, i, j);
    assert forall j | 1 <= j <= len :: Bottoms(candles[..m], i, j) <==> Bottoms(candles, i, j);
  }

  lemma {:induction false} SwingsGrow(candles: seq<Candle>, len: nat, a: int, b: int)
    requires a <= b && b + len <= |candles|
    ensures |Swings(candles, len, a)| <= |Swings(candles, len, b)|
    ensures Swings(candles, len, b)[..|Swings(candles, len, a)|] == Swings(candles, len, a)
    ensures forall k :: |Swings(candles, len, a)| <= k < |Swings(candles, len, b)| ==>
      Swings(candles, len, b)[k].index >= a
    decreases b - a
  {
    hide IsSwingHigh;
    hide IsSwingLow;
    if a < b {
      SwingsGrow(candles, len, a, b - 1);
    }
  }

  lemma {:induction false} SweepsOfPrefix(candles: seq<Candle>, maxAge: real, m: nat, i: nat, swings: seq<Swing>)
    requires i < m <= |candles|
    ensures SweepsAt(candles[..m], maxAge, i, swings) == SweepsAt(candles, maxAge, i, swings)
  {
    if swings != [] {
      SweepsOfPrefix(candles, maxAge, m, i, swings[..|swings| - 1]);
    }
  }

  /** The sweeps of a bar are those over the swings confirmed by then: later swings add none. */
  lemma SweepsAreSettled(candles: seq<Candle>, len: nat, maxAge: real, m: nat, i: nat)
    requires len <= m && i < m <= |candles|
    ensures SweepsAt(candles[..m], maxAge, i, Swings(candles[..m], len, m - len))
         == SweepsAt(candles, maxAge, i, Swings(candles, len, |candles| - len))
  {
    hide Swings;
    hide SweepsAt;
    hide Swept;
    var all, k := Swings(candles, len, |candles| - len), |Swings(candles, len, m - len)|;
    SwingsOfPrefix(candles, len, m, m - len);
    SwingsGrow(candles, len, m - len, |candles| - len);
    forall j | k <= j < |all| ensures !Sweeps(candles, maxAge, i, all[j]) {
      if all[j].index < i {
        NoYoungSweep(candles, len, |candles| - len, all[j], i);
      }
    }
    NothingBehind(candles, maxAge, i, all, k);
    SweepsOfPrefix(candles, maxAge, m, i, all[..k]);
  }

  lemma {:induction false} SweepLastAt(candles: seq<Candle>, len: nat, maxAge: real, swings: seq<Swing>, b: nat, k: nat)
    requires b <= |candles| && k < |candles|
    ensures LastAt(SweepsTo(candles, len, maxAge, swings, b), k)
         == if len + 1 <= k < b then LastAt(SweepsAt(candles, maxAge, k, swings), k) else None
    decreases b
  {
    hide SweepsAt;
    if b > len + 1 {
      SweepLastAt(candles, len, maxAge, swings, b - 1, k);
      AppendedLast(SweepsTo(candles, len, maxAge, swings, b - 1), SweepsAt(candles, maxAge, b - 1, swings), b - 1, k);
    }
  }

  lemma AppendedLast(rest: seq<Mark>, marks: seq<Mark>, i: nat, k: nat)
    requires forall j :: 0 <= j < |marks| ==> marks[j].index == i
    requires k == i ==> LastAt(rest, k) == None
    ensures LastAt(rest + marks, k) == if k == i then LastAt(marks, k) else LastAt(rest, k)
  {
    LastAtAppend(rest, marks, k);
    if k != i { NoneElsewhere(marks, i, k); }
  }

  lemma {:induction false} NoneElsewhere(marks: seq<Mark>, i: nat, k: nat)
    requires k != i && forall j :: 0 <= j < |marks| ==> marks[j].index == i
    ensures LastAt(marks, k) == None
  {
    if marks != [] {
      NoneElsewhere(marks[..|marks| - 1], i, k);
    }
  }

  /** No bar before the first that has a confirmed swing behind it carries a sweep. */
  lemma NoEarlySweep(candles: seq<Candle>, len: nat, maxAge: real, k: nat)
    requires k < |candles| && k <= 2 * len && len <= |candles|
    ensures SweepsAt(candles, maxAge, k, Swings(candles, len, |candles| - len)) == []
  {
    var all := Swings(candles, len, |candles| - len);
    forall j | 0 <= j < |all| ensures !Sweeps(candles, maxAge, k, all[j]) {
      if all[j].index < k {
        NoYoungSweep(candles, len, |candles| - len, all[j], k);
      }
    }
    NothingBehind(candles, maxAge, k, all, 0);
    assert all[..0] == [];
  }

  /**
   * A bar reads the same on a prefix exactly unless the prefix is still too short for any detection while the
   * data is not, where the series is undefined on the one and zero on the other. A detected sweep never depends
   * on later candles.
   */
  lemma SweepHindsightExactly(len: nat, maxAge: real, candles: seq<Candle>, m: nat, k: nat)
    requires k < m <= |candles|
    ensures At(SweepSeries(len, maxAge, candles[..m]), k) == At(SweepSeries(len, maxAge, candles), k)
      <==> !(len <= k && m < 2 * len + 2 <= |candles|)
  {
    hide *;
    var detects := 2 * len + 2;
    if |candles| < detects {
      TooShort(candles, len, maxAge, k);
      TooShort(candles[..m], len, maxAge, k);
    } else if m < detects {
      TooShort(candles[..m], len, maxAge, k);
      EarlySweep(candles, len, maxAge, k);
    } else {
      SweepSeriesAt(candles, len, maxAge, k);
      SweepSeriesAt(candles[..m], len, maxAge, k);
      SweepsAreSettled(candles, len, maxAge, m, k);
    }
  }

  lemma EarlySweep(candles: seq<Candle>, len: nat, maxAge: real, k: nat)
    requires k <= 2 * len && |candles| >= 2 * len + 2
    ensures At(SweepSeries(len, maxAge, candles), k) == if k < len then None else Some(0.0)
  {
    hide Swings;
    hide SweepSeries;
    SweepSeriesAt(candles, len, maxAge, k);
    NoEarlySweep(candles, len, maxAge, k);
  }

  lemma TooShort(candles: seq<Candle>, len: nat, maxAge: real, k: nat)
    requires k < |candles| < 2 * len + 2
    ensures At(SweepSeries(len, maxAge, candles), k) == None
  {
  }

  /** The series at bar `k`, once there are candles enough for a detection. */
  lemma SweepSeriesAt(candles: seq<Candle>, len: nat, maxAge: real, k: nat)
    requires k < |candles| && |candles| >= 2 * len + 2
    ensures At(SweepSeries(len, maxAge, candles), k) ==
      var last := LastAt(SweepsAt(candles, maxAge, k, Swings(candles, len, |candles| - len)), k);
      if len + 1 <= k && last.Some? then last else if k < len then None else Some(0.0)
  {
    hide Swings;
    hide SweepsAt;
    hide SweepsTo;
    SweepLastAt(candles, len, maxAge, Swings(candles, len, |candles| - len), |candles|, k);
  }

  // ----- order blocks: the lookback -----

  lemma {:induction false} RangeSumOfPrefix(candles: seq<Candle>, m: nat, a: nat, b: nat)
    requires a <= b <= m <= |candles|
    ensures RangeSum(candles[..m], a, b) == RangeSum(candles, a, b)
    decreases b
  {
    if a < b {
      RangeSumOfPrefix(candles, m, a, b - 1);
      assert TrueRange(candles[..m], b - 1) == TrueRange(candles, b - 1);
    }
  }

  lemma {:induction false} OpposingOfPrefix(candles: seq<Candle>, maxLookback: real, m: nat, i: nat, j: int)
    requires j < i < m <= |candles|
    ensures OpposingFrom(candles[..m], maxLookback, i, j) == OpposingFrom(candles, maxLookback, i, j)
    decreases j + 1
  {
    if 0 <= j {
      assert Opposes(candles[..m], i, j) <==> Opposes(candles, i, j);
      OpposingOfPrefix(candles, maxLookback, m, i, j - 1);
    }
  }

  lemma ImpulseOfPrefix(candles: seq<Candle>, period: nat, minImpulse: real, maxLookback: real, m: nat, i: nat)
    requires 1 <= period <= i < m <= |candles|
    ensures BlockOfImpulse(candles[..m], period, minImpulse, maxLookback, i)
         == BlockOfImpulse(candles, period, minImpulse, maxLookback, i)
  {
    hide RangeSum;
    hide OpposingFrom;
    RangeSumOfPrefix(candles, m, i + 1 - period, i + 1);
    OpposingOfPrefix(candles, maxLookback, m, i, i - 1);
  }

  /** Some impulse before bar `b` makes candle `k` an order block. */
  ghost predicate MadeBlock(candles: seq<Candle>, period: nat, minImpulse: real, maxLookback: real, b: nat, k: nat)
    requires 1 <= period && b <= |candles|
  {
    exists i :: period <= i < b && BlockOfImpulse(candles, period, minImpulse, maxLookback, i) == Some(k)
  }

  function BlockValue(c: Candle): real {
    if Body(c) < 0.0 then 1.0 else -1.0
  }

  lemma {:induction false} BlockLastAt(candles: seq<Candle>, period: nat, minImpulse: real, maxLookback: real,
                                       b: nat, k: nat)
    requires 1 <= period && b <= |candles| && k < |candles|
    ensures
      var marks := Blocks(candles, period, minImpulse, maxLookback, b);
      && (Emitted(marks, k) <==> MadeBlock(candles, period, minImpulse, maxLookback, b, k))
      && LastAt(marks, k) == if Emitted(marks, k) then Some(BlockValue(candles[k])) else None
    decreases b
  {
    hide BlockOfImpulse;
    if b > period {
      BlockLastAt(candles, period, minImpulse, maxLookback, b - 1, k);
      var before := Blocks(candles, period, minImpulse, maxLookback, b - 1);
      var block := BlockOfImpulse(candles, period, minImpulse, maxLookback, b - 1);
      WithBlockAt(candles, before, block, k);
      assert block == Some(k) ==> MadeBlock(candles, period, minImpulse, maxLookback, b, k);
    }
  }

  lemma WithBlockAt(candles: seq<Candle>, marks: seq<Mark>, block: Option<nat>, k: nat)
    requires k < |candles| && (block.Some? ==> block.value < |candles|)
    requires LastAt(marks, k) == if Emitted(marks, k) then Some(BlockValue(candles[k])) else None
    ensures
      var after := WithBlock(candles, marks, block);
      && (Emitted(after, k) <==> Emitted(marks, k) || block == Some(k))
      && LastAt(after, k) == if Emitted(after, k) then Some(BlockValue(candles[k])) else None
  {
    var after := WithBlock(candles, marks, block);
    if after != marks {
      assert after[..|after| - 1] == marks && after[|after| - 1].index == block.value;
      assert forall j :: 0 <= j < |marks| ==> after[j] == marks[j];
    }
  }

  /** A bar reads the same on a prefix exactly unless it takes an impulse after the prefix to make it a block. */
  lemma BlockHindsightExactly(period: nat, minImpulse: real, maxLookback: real, candles: seq<Candle>, m: nat, k: nat)
    requires 1 <= period && k < m <= |candles|
    ensures At(OrderBlockSeries(period, minImpulse, maxLookback, candles[..m]), k)
         == At(OrderBlockSeries(period, minImpulse, maxLookback, candles), k)
      <==> (MadeBlock(candles, period, minImpulse, maxLookback, |candles|, k)
            ==> MadeBlock(candles, period, minImpulse, maxLookback, m, k))
  {
    hide BlockOfImpulse;
    hide Emitted;
    hide Blocks;
    BlockLastAt(candles, period, minImpulse, maxLookback, |candles|, k);
    BlockLastAt(candles[..m], period, minImpulse, maxLookback, m, k);
    forall i | period <= i < m
      ensures BlockOfImpulse(candles[..m], period, minImpulse, maxLookback, i)
           == BlockOfImpulse(candles, period, minImpulse, maxLookback, i)
    {
      ImpulseOfPrefix(candles, period, minImpulse, maxLookback, m, i);
    }
  }

  /** So a bar is settled once the lookback has passed. */
  lemma BlockSettles(period: nat, minImpulse: real, maxLookback: real, candles: seq<Candle>, m: nat, k: nat)
    requires 1 <= period && k < m <= |candles| && (m - k) as real > maxLookback
    ensures At(OrderBlockSeries(period, minImpulse, maxLookback, candles[..m]), k)
         == At(OrderBlockSeries(period, minImpulse, maxLookback, candles), k)
  {
    hide OrderBlockSeries;
    BlockHindsightExactly(period, minImpulse, maxLookback, candles, m, k);
    if MadeBlock(candles, period, minImpulse, maxLookback, |candles|, k) {
      var i :| period <= i < |candles| && BlockOfImpulse(candles, period, minImpulse, maxLookback, i) == Some(k);
      assert i as real - maxLookback <= k as real;
      assert i < m;
    }
  }

  // ----- market structure shifts: the confirmation, and the second swing -----

  ghost predicate NotBehind(swings: seq<Swing>, i: int) {
    forall k :: 0 <= k < |swings| ==> swings[k].index >= i
  }

  lemma {:induction false} KindsAppend(a: seq<Swing>, b: seq<Swing>, high: bool)
    ensures OfKind(a + b, high) == OfKind(a, high) + OfKind(b, high)
    decreases |b|
  {
    if b == [] {
      assert a + b == a;
    } else {
      KindsAppend(a, b[..|b| - 1], high);
      assert (a + b)[..|a + b| - 1] == a + b[..|b| - 1];
    }
  }

  /** Swings that are not behind a bar do not matter at it. */
  lemma {:induction false} LaterSwings(a: seq<Swing>, b: seq<Swing>, broken: set<nat>, i: int)
    requires NotBehind(b, i)
    ensures Behind(a + b, i) == Behind(a, i) && LastUnbroken(a + b, broken, i) == LastUnbroken(a, broken, i)
    decreases |b|
  {
    if b == [] {
      assert a + b == a;
    } else {
      LaterSwings(a, b[..|b| - 1], broken, i);
      assert (a + b)[..|a + b| - 1] == a + b[..|b| - 1];
      assert (a + b)[|a + b| - 1] == b[|b| - 1];
    }
  }

  lemma LaterSwingsStep(candles: seq<Candle>, h: seq<Swing>, l: seq<Swing>, h': seq<Swing>, l': seq<Swing>,
                        m: nat, i: nat, st: Shifts)
    requires i < m <= |candles| && NotBehind(h', i) && NotBehind(l', i)
    ensures ShiftStep(candles[..m], h, l, i, st) == ShiftStep(candles, h + h', l + l', i, st)
  {
    LaterSwings(h, h', st.broken, i);
    LaterSwings(l, l', st.broken, i);
    var up := LastUnbroken(h, st.broken, i);
    if up.Some? {
      LaterSwings(l, l', st.broken + {up.value.index}, i);
    }
    hide LastUnbroken;
    hide Behind;
  }

  lemma {:induction false} LaterSwingsRun(candles: seq<Candle>, h: seq<Swing>, l: seq<Swing>, h': seq<Swing>,
                                          l': seq<Swing>, m: nat, a: nat, k: nat)
    requires k <= m <= |candles| && NotBehind(h', k - 1) && NotBehind(l', k - 1)
    ensures ShiftsTo(candles[..m], h, l, a, k) == ShiftsTo(candles, h + h', l + l', a, k)
    decreases k
  {
    hide ShiftStep;
    if k > a {
      LaterSwingsRun(candles, h, l, h', l', m, a, k - 1);
      LaterSwingsStep(candles, h, l, h', l', m, k - 1, ShiftsTo(candles[..m], h, l, a, k - 1));
    }
  }

  lemma ShiftStepMarks(candles: seq<Candle>, highs: seq<Swing>, lows: seq<Swing>, i: nat, st: Shifts, k: nat)
    requires i < |candles| && k != i
    ensures LastAt(ShiftStep(candles, highs, lows, i, st).marks, k) == LastAt(st.marks, k)
  {
    hide LastUnbroken;
    hide TrendFrom;
    hide Behind;
  }

  /** What a bar shows is decided once its own step is done. */
  lemma {:induction false} ShiftLastAt(candles: seq<Candle>, highs: seq<Swing>, lows: seq<Swing>, a: nat, b: nat,
                                       k: nat)
    requires k < b <= |candles|
    ensures LastAt(ShiftsTo(candles, highs, lows, a, b).marks, k)
         == LastAt(ShiftsTo(candles, highs, lows, a, k + 1).marks, k)
    decreases b
  {
    hide ShiftStep;
    if b > k + 1 {
      ShiftLastAt(candles, highs, lows, a, b - 1, k);
      if b > a {
        ShiftStepMarks(candles, highs, lows, b - 1, ShiftsTo(candles, highs, lows, a, b - 1), k);
      }
    }
  }

  /** The swings of a prefix, and those the rest of the candles adds. */
  lemma SwingsSplit(candles: seq<Candle>, len: nat, m: nat) returns (known: seq<Swing>, rest: seq<Swing>)
    requires len <= m <= |candles|
    ensures known == Swings(candles[..m], len, m - len) && known + rest == Swings(candles, len, |candles| - len)
    ensures NotBehind(rest, m - len)
  {
    hide Swings;
    var all := Swings(candles, len, |candles| - len);
    known := Swings(candles, len, m - len);
    SwingsOfPrefix(candles, len, m, m - len);
    SwingsGrow(candles, len, m - len, |candles| - len);
    rest := all[|known|..];
  }

  lemma KindNotBehind(swings: seq<Swing>, high: bool, i: int)
    requires NotBehind(swings, i)
    ensures NotBehind(OfKind(swings, high), i)
  {
  }

  lemma ShiftMarksSettle(len: nat, candles: seq<Candle>, m: nat, k: nat, known: seq<Swing>, rest: seq<Swing>)
    requires k < m <= |candles| && k + len <= m && m >= 2 * len + 2
    requires known == Swings(candles[..m], len, m - len) && known + rest == Swings(candles, len, |candles| - len)
    requires NotBehind(rest, k) && |known| >= 2
    ensures LastAt(ShiftMarks(candles[..m], len), k) == LastAt(ShiftMarks(candles, len), k)
  {
    hide Swings;
    hide ShiftsTo;
    hide OfKind;
    var h, l, h', l' := OfKind(known, true), OfKind(known, false), OfKind(rest, true), OfKind(rest, false);
    KindsAppend(known, rest, true);
    KindsAppend(known, rest, false);
    KindNotBehind(rest, true, k);
    KindNotBehind(rest, false, k);
    var start := known[0].index + len + 1;
    LaterSwingsRun(candles, h, l, h', l', m, start, k + 1);
    ShiftLastAt(candles, h + h', l + l', start, |candles|, k);
    ShiftLastAt(candles[..m], h, l, start, m, k);
    assert (known + rest)[0] == known[0];
  }

  /** A bar is settled once the swings behind it are confirmed, if the prefix has two swings at all. */
  lemma ShiftSettles(len: nat, candles: seq<Candle>, m: nat, k: nat)
    requires k < m <= |candles| && k + len <= m && m >= 2 * len + 2
    requires |Swings(candles[..m], len, m - len)| >= 2
    ensures At(ShiftSeries(len, candles[..m]), k) == At(ShiftSeries(len, candles), k)
  {
    hide Swings;
    hide ShiftMarks;
    var known, rest := SwingsSplit(candles, len, m);
    ShiftMarksSettle(len, candles, m, k, known, rest);
  }
}
