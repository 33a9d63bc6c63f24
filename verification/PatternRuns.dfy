/** Which strategies the pattern series let look ahead, and part from the live engines. */
module PatternRuns {
  import opened Wrappers
  import opened Market
  import opened Ema
  import opened Indicators
  import opened Signals
  import opened Strategy
  import opened Backtest
  import opened Patterns
  import opened PatternHindsight
  import opened Scenarios
  import opened NoLookAhead
  import opened LiveEngine
  import opened LiveParity

  // ----- libraries with the platform's own patterns -----

  /** The platform's series for a pattern computation, where its bar counts are counts. */
  function PatternSeries(comp: Calc, candles: seq<Candle>): Option<Series> {
    match comp
    case FairValueGap(ratio) => Some(FvgSeries(ratio, candles))
    case LiquiditySweep(len, maxAge) =>
      if PositiveInteger(len) then Some(SweepSeries(len.Floor, maxAge, candles)) else None
    case OrderBlock(period, minImpulse, maxLookback) =>
      if PositiveInteger(period) then Some(OrderBlockSeries(period.Floor, minImpulse, maxLookback, candles)) else None
    case StructureShift(len) => if PositiveInteger(len) then Some(ShiftSeries(len.Floor, candles)) else None
    case _ => None
  }

  /** The library answers pattern computations with the platform's series. */
  ghost predicate OwnPatterns(lib: Library) {
    forall comp, candles :: PatternSeries(comp, candles).Some? ==>
      lib(comp, candles) == Output(PatternSeries(comp, candles).value, [], [])
  }

  /** All its other computations are causal. */
  ghost predicate CausalElsewhere(lib: Library) {
    forall comp :: !IsPattern(comp) ==> CausalCalc(lib, comp)
  }

  /** Such a library, which answers nothing else. */
  function Own(): Library {
    (comp: Calc, candles: seq<Candle>) => Output(PatternSeries(comp, candles).Else([]), [], [])
  }

  lemma OwnIsOne()
    ensures OwnPatterns(Own()) && CausalElsewhere(Own())
  {
    forall comp, line, candles: seq<Candle>, m: nat, i: nat | !IsPattern(comp) && i < m <= |candles|
      ensures CausalAt(Own(), comp, line, candles, m, i)
    {
    }
  }

  datatype PatternKind = GapKind | SweepKind | BlockKind | ShiftKind

  function KindOfCalc(comp: Calc): PatternKind
    requires IsPattern(comp)
  {
    match comp
    case FairValueGap(_) => GapKind
    case LiquiditySweep(_, _) => SweepKind
    case OrderBlock(_, _, _) => BlockKind
    case StructureShift(_) => ShiftKind
  }

  predicate ReadsPattern(q: Query) {
    q.Computed? && IsPattern(q.comp)
  }

  /** The kinds of pattern a strategy reads. */
  ghost function PatternKinds(dsl: Dsl): set<PatternKind> {
    set q | q in BacktestReads(dsl) && ReadsPattern(q) :: KindOfCalc(q.comp)
  }

  lemma PatternRead(dsl: Dsl, q: Query)
    requires q in BacktestReads(dsl)
    ensures ReadsPattern(q) ==> KindOfCalc(q.comp) in PatternKinds(dsl)
  {
  }

  /** A strategy that reads no pattern reads causally. */
  lemma PatternFreeIsCausal(env: Env)
    requires CausalElsewhere(env.lib) && PatternKinds(env.dsl) == {}
    ensures CausalRun(env)
  {
    forall q | q in BacktestReads(env.dsl) ensures CausalQuery(env.lib, q) {
      PatternRead(env.dsl, q);
    }
  }

  /** The query is a sweep, and the prefix long enough to detect one. */
  predicate LongEnough(q: Query, m: nat) {
    && q.Computed? && q.comp.LiquiditySweep? && PositiveInteger(q.comp.swingLen)
    && m >= 2 * q.comp.swingLen.Floor + 2
  }

  /** A strategy whose only patterns are sweeps is settled on every prefix long enough to detect them. */
  lemma SweepRunsSettle(env: Env, candles: seq<Candle>, m: nat)
    requires OwnPatterns(env.lib) && CausalElsewhere(env.lib) && m <= |candles|
    requires forall q :: q in BacktestReads(env.dsl) && ReadsPattern(q) ==> LongEnough(q, m)
    ensures Settled(env, candles, m)
  {
    forall q, i: nat | q in BacktestReads(env.dsl) && i < m
      ensures ValueAt(env.lib, q, candles[..m], i) == ValueAt(env.lib, q, candles, i)
    {
      if ReadsPattern(q) {
        SweepAgrees(env.lib, q, candles, m, i);
      } else {
        ValueIsCausal(env.lib, q, candles, m, i);
      }
    }
  }

  lemma {:induction false} SweepAgrees(lib: Library, q: Query, candles: seq<Candle>, m: nat, i: nat)
    requires OwnPatterns(lib) && LongEnough(q, m) && i < m <= |candles|
    ensures ValueAt(lib, q, candles[..m], i) == ValueAt(lib, q, candles, i)
  {
    SweepHindsightExactly(q.comp.swingLen.Floor, q.comp.maxAge, candles, m, i);
    hide At;
    SweepAnswer(lib, q, candles);
    SweepAnswer(lib, q, candles[..m]);
  }

  lemma {:induction false} SweepAnswer(lib: Library, q: Query, candles: seq<Candle>)
    requires OwnPatterns(lib) && q.Computed? && q.comp.LiquiditySweep? && PositiveInteger(q.comp.swingLen)
    ensures Answer(lib, q, candles)
         == Output(SweepSeries(q.comp.swingLen.Floor, q.comp.maxAge, candles), [], []).Get(q.line)
  {
    hide SweepSeries;
    assert PatternSeries(q.comp, candles) == Some(SweepSeries(q.comp.swingLen.Floor, q.comp.maxAge, candles));
  }

  // ----- a strategy that shows what it read -----

  /** Long at the first bar; out at the next, by indicator if the reading is `v` and by time if it is not. */
  function Probe(lib: Library, ref: IndicatorRef, v: real): Env {
    var byReading := Some(IndicatorExit(ref, Eq, v, None));
    var exit := PctExit(50.0, 50.0).(indicatorExit := byReading, maxBarsInPosition := Some(1));
    Env(lib, Dsl(ALWAYS_LONG, Some(exit), 1.0, None), ExecOpts(None, None, None, None))
  }

  /** Prices too close to 100 for the stop and the target. */
  predicate Calm(candles: seq<Candle>) {
    |candles| >= 3 && candles[1].close == 100.0 && candles[2].low > 50.0 && candles[2].high < 150.0
  }

  function ReasonFor(reading: Option<real>, v: real): ExitReason {
    if reading == Some(v) then ByIndicator else ByTime
  }

  lemma {:induction false} ProbeEnters(lib: Library, ref: IndicatorRef, v: real, candles: seq<Candle>)
    requires Calm(candles)
    ensures
      var p := RunTo(Probe(lib, ref, v), candles, 2).position;
      && p.Some? && p.value == Flat(Probe(lib, ref, v), candles, 1, Long, (candles[1].close, candles[1].openTime, 1))
      && RunTo(Probe(lib, ref, v), candles, 2).log == []
  {
    var env := Probe(lib, ref, v);
    AlwaysFires(lib, 1, candles);
    hide SignalFires;
    hide Flat;
    assert RunTo(env, candles, 1) == START;
  }

  lemma {:induction false} ProbeLevels(lib: Library, ref: IndicatorRef, v: real, candles: seq<Candle>)
    requires Calm(candles)
    ensures
      var p := Flat(Probe(lib, ref, v), candles, 1, Long, (candles[1].close, candles[1].openTime, 1));
      && p.side == Long && p.entryBar == 1 && p.sl == 50.0 && p.tp == 150.0 && p.ladder == None
  {
  }

  /** The backtest's exit tells what the indicator read at bar 2 of all candles. */
  lemma {:induction false} ProbeShows(lib: Library, ref: IndicatorRef, v: real, candles: seq<Candle>)
    requires Calm(candles)
    ensures
      var log := RunTo(Probe(lib, ref, v), candles, 3).log;
      |log| == 1 && log[0].reason == ReasonFor(BacktestValue(lib, ref, candles, 2), v)
  {
    var env := Probe(lib, ref, v);
    ProbeEnters(lib, ref, v, candles);
    ProbeLevels(lib, ref, v, candles);
    var st := RunTo(env, candles, 2);
    hide Flat;
    hide BacktestValue;
    hide PnlPct;
    assert RunTo(env, candles, 3) == Step(env, candles, 2, st);
    assert FillLadder(env, candles[2], st.position.value) == st.position.value;
  }

  /** The live engine's exit tells what it read at bar 2 of the window ending there. */
  lemma {:induction false} ProbeShowsLive(lib: Library, ref: IndicatorRef, v: real, candles: seq<Candle>)
    requires Calm(candles)
    ensures
      var log := LiveTo(lib, Probe(lib, ref, v).dsl, candles, 3).log;
      |log| == 1 && log[0].reason == ReasonFor(LiveValue(lib, ref, candles[..3], 2), v)
  {
    var dsl := Probe(lib, ref, v).dsl;
    var st := LiveTo(lib, dsl, candles, 2);
    ProbeEntersLive(lib, ref, v, candles);
    hide LiveValue;
    assert LiveTo(lib, dsl, candles, 3) == Tick(lib, dsl, candles, 2, st);
    assert candles[..3][2] == candles[2];
  }

  lemma {:induction false} ProbeEntersLive(lib: Library, ref: IndicatorRef, v: real, candles: seq<Candle>)
    requires Calm(candles)
    ensures
      var st := LiveTo(lib, Probe(lib, ref, v).dsl, candles, 2);
      && st.log == [] && st.position.Some? && st.position.value.entryBar == 1
      && st.position.value.snapshot == Snapshot(true, Long, 100.0, Some(50.0), Some(150.0))
  {
    var dsl := Probe(lib, ref, v).dsl;
    AlwaysFires(lib, 1, candles[..2]);
    hide SignalFires;
    assert candles[..2][1] == candles[1];
    assert LiveTo(lib, dsl, candles, 1) == LiveState(None, []);
  }

  /** The prefix run and the live run both part from the full run when the prefix reads something else. */
  lemma {:induction false} ProbeParts(lib: Library, ref: IndicatorRef, v: real, candles: seq<Candle>)
    requires Calm(candles) && SameQuery(ref)
    requires (BacktestValue(lib, ref, candles[..3], 2) == Some(v)) != (BacktestValue(lib, ref, candles, 2) == Some(v))
    ensures !IsPrefix(RunTo(Probe(lib, ref, v), candles[..3], 3).log, Final(Probe(lib, ref, v), candles).log)
    ensures RunView(RunTo(Probe(lib, ref, v), candles, 3)) != LiveTo(lib, Probe(lib, ref, v).dsl, candles, 3)
  {
    var env := Probe(lib, ref, v);
    hide RunTo;
    hide LiveTo;
    hide Final;
    hide BacktestValue;
    ProbeShows(lib, ref, v, candles);
    ProbeShows(lib, ref, v, candles[..3]);
    ProbeShowsLive(lib, ref, v, candles);
    FinalLogGrows(env, candles, 3);
    var full, short := RunTo(env, candles, 3), RunTo(env, candles[..3], 3);
    assert short.log[0] != Final(env, candles).log[0];
    SameReading(lib, ref, candles[..3]);
    assert RunView(full).log[0].reason == full.log[0].reason;
  }

  lemma SameReading(lib: Library, ref: IndicatorRef, candles: seq<Candle>)
    requires SameQuery(ref)
    ensures BacktestValue(lib, ref, candles, 2) == LiveValue(lib, ref, candles, 2)
  {
  }

  // ----- one failing run for each kind -----

  const GAP := IndicatorRef(GapBlock, NO_PARAMS)
  const SWEEP := IndicatorRef(SweepBlock, NO_PARAMS.(length := Some(1.0)))
  const BLOCK := IndicatorRef(OrderBlockBlock, NO_PARAMS.(period := Some(1.0), multiplier := Some(0.5)))
  const SHIFT := IndicatorRef(ShiftBlock, NO_PARAMS.(length := Some(1.0)))

  const RISING := [Bar(1, 100.0), Bar(2, 100.0), Bar(3, 110.0), Bar(4, 120.0)]
  const LEVEL := [Bar(1, 100.0), Bar(2, 100.0), Bar(3, 100.0), Bar(4, 100.0)]
  const REVERSING := [Bar(1, 100.0), Bar(2, 100.0), Candle(3, 100.0, 100.0, 99.0, 99.0, 1.0),
                      Candle(4, 99.0, 110.0, 99.0, 110.0, 1.0)]

  function RefOf(kind: PatternKind): IndicatorRef {
    match kind
    case GapKind => GAP
    case SweepKind => SWEEP
    case BlockKind => BLOCK
    case ShiftKind => SHIFT
  }

  function DataOf(kind: PatternKind): seq<Candle> {
    match kind
    case GapKind => RISING
    case BlockKind => REVERSING
    case _ => LEVEL
  }

  lemma PatternValue(lib: Library, ref: IndicatorRef, comp: Calc, candles: seq<Candle>, i: int)
    requires OwnPatterns(lib) && PatternSeries(comp, candles).Some?
    requires QueryOf(ref.block, BacktestParams(ref.params)) == Computed(comp, Main) && IsPattern(comp)
    ensures BacktestValue(lib, ref, candles, i) == At(PatternSeries(comp, candles).value, i)
  {
  }

  lemma GapReads(lib: Library)
    requires OwnPatterns(lib)
    ensures BacktestValue(lib, GAP, RISING[..3], 2) == Some(0.0) && BacktestValue(lib, GAP, RISING, 2) == Some(1.0)
  {
    GapSeriesAt(0.0, RISING, 2);
    GapSeriesAt(0.0, RISING[..3], 2);
    hide FvgSeries;
    PatternValue(lib, GAP, FairValueGap(0.0), RISING, 2);
    PatternValue(lib, GAP, FairValueGap(0.0), RISING[..3], 2);
  }

  lemma {:induction false} EarlySweepSeries(candles: seq<Candle>)
    requires 3 <= |candles| <= 4
    ensures At(SweepSeries(1, 50.0, candles), 2) == if |candles| == 4 then Some(0.0) else None
  {
    if |candles| == 4 {
      NoEarlySweep(candles, 1, 50.0, 2);
      SweepLastAt(candles, 1, 50.0, Swings(candles, 1, 3), 4, 2);
    }
    hide Swings;
    hide SweepsAt;
    hide SweepsTo;
  }

  lemma {:induction false} SweepReads(lib: Library, candles: seq<Candle>)
    requires OwnPatterns(lib) && 3 <= |candles| <= 4
    ensures BacktestValue(lib, SWEEP, candles, 2) == if |candles| == 4 then Some(0.0) else None
  {
    EarlySweepSeries(candles);
    hide SweepSeries;
    PatternValue(lib, SWEEP, LiquiditySweep(1.0, 50.0), candles, 2);
  }

  lemma BlockReads(lib: Library)
    requires OwnPatterns(lib)
    ensures BacktestValue(lib, BLOCK, REVERSING[..3], 2) == Some(0.0)
    ensures BacktestValue(lib, BLOCK, REVERSING, 2) == Some(1.0)
  {
    LateImpulse();
    hide BlockOfImpulse;
    hide Blocks;
    hide Emitted;
    BlockLastAt(REVERSING, 1, 0.5, 5.0, 4, 2);
    BlockLastAt(REVERSING[..3], 1, 0.5, 5.0, 3, 2);
    assert MadeBlock(REVERSING, 1, 0.5, 5.0, 4, 2);
    assert At(OrderBlockSeries(1, 0.5, 5.0, REVERSING), 2) == Some(1.0);
    assert At(OrderBlockSeries(1, 0.5, 5.0, REVERSING[..3]), 2) == Some(0.0);
    hide OrderBlockSeries;
    PatternValue(lib, BLOCK, OrderBlock(1.0, 0.5, 5.0), REVERSING, 2);
    PatternValue(lib, BLOCK, OrderBlock(1.0, 0.5, 5.0), REVERSING[..3], 2);
  }

  lemma LateImpulse()
    ensures BlockOfImpulse(REVERSING, 1, 0.5, 5.0, 3) == Some(2)
  {
    assert RangeSum(REVERSING, 3, 3) == 0.0;
    assert TrueRange(REVERSING, 3) == 11.0;
    assert RangeSum(REVERSING, 3, 4) == 11.0;
    assert Opposes(REVERSING, 3, 2);
  }

  lemma {:induction false} NoSwings(candles: seq<Candle>, b: int)
    requires b + 1 <= |candles|
    requires forall i, j :: 0 <= i < |candles| && 0 <= j < |candles| ==>
      candles[i].high == candles[j].high && candles[i].low == candles[j].low
    ensures Swings(candles, 1, b) == []
    decreases b
  {
    if b > 1 {
      NoSwings(candles, b - 1);
      assert !Tops(candles, b - 1, 1) && !Bottoms(candles, b - 1, 1);
    }
  }

  lemma {:induction false} EarlyShiftSeries(candles: seq<Candle>)
    requires 3 <= |candles| <= 4
    requires |candles| == 4 ==> Swings(candles, 1, 3) == []
    ensures At(ShiftSeries(1, candles), 2) == if |candles| == 4 then Some(0.0) else None
  {
    hide Swings;
  }

  lemma {:induction false} ShiftReads(lib: Library, candles: seq<Candle>)
    requires OwnPatterns(lib) && 3 <= |candles| <= 4
    requires |candles| == 4 ==> Swings(candles, 1, 3) == []
    ensures BacktestValue(lib, SHIFT, candles, 2) == if |candles| == 4 then Some(0.0) else None
  {
    hide Swings;
    EarlyShiftSeries(candles);
    hide ShiftSeries;
    hide At;
    var comp := StructureShift(1.0);
    assert PatternSeries(comp, candles) == Some(ShiftSeries(1, candles));
    hide PatternSeries;
    PatternValue(lib, SHIFT, comp, candles, 2);
  }

  lemma KindReads(lib: Library, kind: PatternKind)
    requires OwnPatterns(lib)
    ensures (BacktestValue(lib, RefOf(kind), DataOf(kind)[..3], 2) == Some(0.0))
         != (BacktestValue(lib, RefOf(kind), DataOf(kind), 2) == Some(0.0))
  {
    hide BacktestValue;
    hide Swings;
    match kind
    case GapKind => GapReads(lib);
    case SweepKind =>
      SweepReads(lib, LEVEL);
      SweepReads(lib, LEVEL[..3]);
    case BlockKind => BlockReads(lib);
    case ShiftKind =>
      NoSwings(LEVEL, 3);
      ShiftReads(lib, LEVEL);
      ShiftReads(lib, LEVEL[..3]);
  }

  /** Reading a pattern of any kind, the probe's run over three candles and its live run part from the full run. */
  lemma PatternsPeek(lib: Library, kind: PatternKind)
    requires OwnPatterns(lib)
    ensures
      var env, candles := Probe(lib, RefOf(kind), 0.0), DataOf(kind);
      && !IsPrefix(RunTo(env, candles[..3], 3).log, Final(env, candles).log)
      && RunView(RunTo(env, candles, 3)) != LiveTo(lib, env.dsl, candles, 3)
  {
    hide BacktestValue;
    hide RunTo;
    hide LiveTo;
    hide Final;
    KindReads(lib, kind);
    assert SameQuery(RefOf(kind));
    ProbeParts(lib, RefOf(kind), 0.0, DataOf(kind));
  }

  /** Highs of 100, 110, 100 and so on, with the given last candle. */
  const PEAKED := [Candle(1, 95.0, 100.0, 90.0, 95.0, 1.0), Candle(2, 95.0, 110.0, 90.0, 95.0, 1.0),
                   Candle(3, 95.0, 100.0, 90.0, 95.0, 1.0), Candle(4, 95.0, 112.0, 90.0, 111.0, 1.0)]

  /** A break is not reported before a second swing: here the one the break itself makes, a bar later. */
  lemma ShiftHindsightExample()
    ensures
      var candles := PEAKED + [Candle(5, 95.0, 100.0, 90.0, 95.0, 1.0)];
      && candles[..4] == PEAKED
      && At(ShiftSeries(1, candles[..4]), 3) == Some(0.0) && At(ShiftSeries(1, candles), 3) == Some(1.0)
  {
    var candles := PEAKED + [Candle(5, 95.0, 100.0, 90.0, 95.0, 1.0)];
    assert candles[..4] == PEAKED;
    PeakedSwings(candles);
    SwingsOfPrefix(candles, 1, 4, 3);
    hide ShiftSeries;
    hide Swings;
    UnseenBreak(PEAKED);
    SeenBreak(candles);
  }

  lemma {:induction false} PeakedSwings(candles: seq<Candle>)
    requires candles == PEAKED + [Candle(5, 95.0, 100.0, 90.0, 95.0, 1.0)]
    ensures Swings(candles, 1, 3) == [Swing(1, 110.0, true)]
    ensures Swings(candles, 1, 4) == [Swing(1, 110.0, true), Swing(3, 112.0, true)]
  {
    assert Tops(candles, 1, 1) && Tops(candles, 3, 1) && !Tops(candles, 2, 1);
    assert !Bottoms(candles, 1, 1) && !Bottoms(candles, 2, 1) && !Bottoms(candles, 3, 1);
    assert Swings(candles, 1, 1) == [];
    assert Swings(candles, 1, 2) == [Swing(1, 110.0, true)];
  }

  lemma {:induction false} UnseenBreak(candles: seq<Candle>)
    requires |candles| == 4 && |Swings(candles, 1, 3)| == 1
    ensures At(ShiftSeries(1, candles), 3) == Some(0.0)
  {
    hide Swings;
    assert ShiftMarks(candles, 1) == [];
  }

  lemma {:induction false} SeenBreak(candles: seq<Candle>)
    requires |candles| == 5 && candles[3].close == 111.0
    requires Swings(candles, 1, 4) == [Swing(1, 110.0, true), Swing(3, 112.0, true)]
    ensures At(ShiftSeries(1, candles), 3) == Some(1.0)
  {
    hide Swings;
    hide ShiftsTo;
    hide OfKind;
    var swings := Swings(candles, 1, 4);
    TwoHighs(swings[0], swings[1]);
    ShiftLastAt(candles, swings, [], 3, 5, 3);
    FirstBreak(candles, swings);
    assert ShiftMarks(candles, 1) == ShiftsTo(candles, swings, [], 3, 5).marks;

  }

  lemma TwoHighs(a: Swing, b: Swing)
    requires a.high && b.high && a.index < 3 && b.index == 3
    ensures OfKind([a, b], true) == [a, b] && OfKind([a, b], false) == []
    ensures LastUnbroken([a, b], {}, 3) == Some(a)
  {
    assert [a, b][..1] == [a];
    assert OfKind([a], true) == [a] && OfKind([a], false) == [];
    assert LastUnbroken([a], {}, 3) == Some(a);
  }

  lemma {:induction false} FirstBreak(candles: seq<Candle>, highs: seq<Swing>)
    requires 3 < |candles| && LastUnbroken(highs, {}, 3).Some?
    requires LastUnbroken(highs, {}, 3).value.level < candles[3].close
    ensures LastAt(ShiftsTo(candles, highs, [], 3, 4).marks, 3) == Some(1.0)
  {
    hide LastUnbroken;
    hide Behind;
    assert ShiftsTo(candles, highs, [], 3, 3) == Shifts({}, []);
    assert LastUnbroken([], {LastUnbroken(highs, {}, 3).value.index}, 3) == None;
    assert ShiftStep(candles, highs, [], 3, Shifts({}, [])).marks == [Mark(3, 1.0)];
  }

  // ----- the exact condition -----

  /** No strategy that reads patterns of these kinds only looks ahead, on any data, with the platform's patterns. */
  ghost predicate NeverPeeks(kinds: set<PatternKind>) {
    forall env: Env, candles: seq<Candle>, m: nat ::
      && OwnPatterns(env.lib) && CausalElsewhere(env.lib) && PatternKinds(env.dsl) <= kinds
      && env.FillMode() != AtNextOpen && m <= |candles|
      ==> IsPrefix(RunTo(env, candles[..m], m).log, Final(env, candles).log)
  }

  /** Nor does it trade live other than in the frictionless backtest. */
  ghost predicate AlwaysLive(kinds: set<PatternKind>) {
    forall env: Env, candles: seq<Candle>, n: nat ::
      && OwnPatterns(env.lib) && CausalElsewhere(env.lib) && PatternKinds(env.dsl) <= kinds
      && Frictionless(env) && Parity(env.dsl) && n <= |candles|
      ==> RunView(RunTo(env, candles, n)) == LiveTo(env.lib, env.dsl, candles, n)
  }

  lemma ProbeKinds(lib: Library, kind: PatternKind)
    ensures PatternKinds(Probe(lib, RefOf(kind), 0.0).dsl) <= {kind}
    ensures Frictionless(Probe(lib, RefOf(kind), 0.0)) && Parity(Probe(lib, RefOf(kind), 0.0).dsl)
  {
    hide RefOf;
    ProbeReads(lib, RefOf(kind));
    RefReads(kind);
  }

  /** The probe reads its indicator and nothing else of the library. */
  lemma ProbeReads(lib: Library, ref: IndicatorRef)
    ensures forall q :: q in BacktestReads(Probe(lib, ref, 0.0).dsl) && ReadsPattern(q) ==>
      q == QueryOf(ref.block, BacktestParams(ref.params))
    ensures Frictionless(Probe(lib, ref, 0.0))
    ensures SameQuery(ref) ==> Parity(Probe(lib, ref, 0.0).dsl)
  {
    hide SameQuery;
  }

  lemma RefReads(kind: PatternKind)
    ensures SameQuery(RefOf(kind))
    ensures
      var q := QueryOf(RefOf(kind).block, BacktestParams(RefOf(kind).params));
      ReadsPattern(q) && KindOfCalc(q.comp) == kind
  {
  }

  lemma PatternFreeNeverPeeks()
    ensures NeverPeeks({})
  {
    forall env: Env, candles: seq<Candle>, m: nat |
      && CausalElsewhere(env.lib) && PatternKinds(env.dsl) <= {} && env.FillMode() != AtNextOpen && m <= |candles|
      ensures IsPrefix(RunTo(env, candles[..m], m).log, Final(env, candles).log)
    {
      PatternFreeIsCausal(env);
      CausalIsSettled(env, candles, m);
      NoLookAheadAtBar(env, candles, m);
    }
  }

  lemma PatternPeeks(kinds: set<PatternKind>, kind: PatternKind)
    requires kind in kinds
    ensures !NeverPeeks(kinds)
  {
    var env, candles := Probe(Own(), RefOf(kind), 0.0), DataOf(kind);
    hide Final;
    hide RunTo;
    hide Parity;
    hide PatternKinds;
    OwnIsOne();
    PatternsPeek(Own(), kind);
    ProbeKinds(Own(), kind);
    assert !IsPrefix(RunTo(env, candles[..3], 3).log, Final(env, candles).log);
  }

  /** Look-ahead is excluded for all strategies exactly if they read none of the four patterns. */
  lemma NoLookAheadExactlyWithoutPatterns(kinds: set<PatternKind>)
    ensures NeverPeeks(kinds) <==> kinds == {}
  {
    hide NeverPeeks;
    PatternFreeNeverPeeks();
    if kinds != {} {
      var kind :| kind in kinds;
      PatternPeeks(kinds, kind);
    }
  }

  lemma PatternFreeIsLive()
    ensures AlwaysLive({})
  {
    forall env: Env, candles: seq<Candle>, n: nat |
      && CausalElsewhere(env.lib) && PatternKinds(env.dsl) <= {}
      && Frictionless(env) && Parity(env.dsl) && n <= |candles|
      ensures RunView(RunTo(env, candles, n)) == LiveTo(env.lib, env.dsl, candles, n)
    {
      PatternFreeIsCausal(env);
      forall w: nat | w <= n ensures Settled(env, candles, w) {
        CausalIsSettled(env, candles, w);
      }
      LiveRefinesBacktest(env, candles, n);
    }
  }

  lemma PatternParts(kinds: set<PatternKind>, kind: PatternKind)
    requires kind in kinds
    ensures !AlwaysLive(kinds)
  {
    var env, candles := Probe(Own(), RefOf(kind), 0.0), DataOf(kind);
    hide RunTo;
    hide LiveTo;
    hide Parity;
    hide PatternKinds;
    OwnIsOne();
    PatternsPeek(Own(), kind);
    ProbeKinds(Own(), kind);
    assert RunView(RunTo(env, candles, 3)) != LiveTo(env.lib, env.dsl, candles, 3);
  }

  /** So is parity with the live engines. */
  lemma LiveParityExactlyWithoutPatterns(kinds: set<PatternKind>)
    ensures AlwaysLive(kinds) <==> kinds == {}
  {
    hide AlwaysLive;
    PatternFreeIsLive();
    if kinds != {} {
      var kind :| kind in kinds;
      PatternParts(kinds, kind);
    }
  }
}
