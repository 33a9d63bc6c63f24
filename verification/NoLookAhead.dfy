/** When no backtest decision depends on candles that had not closed when it was taken. */
module NoLookAhead {
  import opened Wrappers
  import opened Market
  import opened Indicators
  import opened Signals
  import opened Strategy
  import opened Backtest
  import opened Scenarios

  /** `a` is where `b` starts. */
  ghost predicate IsPrefix(a: seq<Trade>, b: seq<Trade>) {
    a <= b
  }

  /** Bar `i` of a run over the first `m` candles sees everything its fill mode needs. */
  predicate Sees(env: Env, m: nat, i: nat) {
    env.FillMode() != AtNextOpen || i + 1 < m
  }

  lemma DecideIsCausal(env: Env, candles: seq<Candle>, m: nat, i: nat, p: Position)
    requires i < m <= |candles| && Settled(env, candles, m)
    ensures !IndicatorFires(env, candles, i, p.side) || Sees(env, m, i) ==>
      Decide(env, candles[..m], i, p) == Decide(env, candles, i, p)
    ensures IndicatorFires(env, candles[..m], i, p.side) <==> IndicatorFires(env, candles, i, p.side)
  {
    hide TrailNow;
    hide TrailFires;
    hide BacktestValue;
    PartsAgree(env.lib, env.dsl, candles, m);
    if env.dsl.exit.Some? && env.dsl.exit.value.indicatorExit.Some? {
      ExitValueIsCausal(env.lib, env.dsl.exit.value.indicatorExit.value.indicator, i, candles, m);
    }
  }

  lemma EnterIsCausal(env: Env, candles: seq<Candle>, m: nat, i: nat)
    requires i < m <= |candles| && Settled(env, candles, m)
    ensures Sees(env, m, i) ==> Enter(env, candles[..m], i) == Enter(env, candles, i)
    ensures !Sees(env, m, i) ==> Enter(env, candles[..m], i) == None
  {
    PartsAgree(env.lib, env.dsl, candles, m);
    GatesAreCausal(env.lib, env.dsl, i, candles, m);
    SidesAreCausal(env.lib, env.dsl.entry, i, candles, m);
    if Sees(env, m, i) && Enter(env, candles, i).Some? {
      var side := BacktestSide(env.lib, env.dsl.entry, i, candles).value;
      var fill := EntryFill(env, candles, i).value;
      OpenIsCausal(env, candles, m, i, side, fill);
    }
  }

  lemma OpenIsCausal(env: Env, candles: seq<Candle>, m: nat, i: nat, side: Side, fill: (Price, int, nat))
    requires i < m <= |candles| && Settled(env, candles, m)
    ensures Open(env, candles[..m], i, side, fill) == Open(env, candles, i, side, fill)
  {
    var entry := Effective(fill.0, env.EntryMult());
    PartsAgree(env.lib, env.dsl, candles, m);
    LevelsAreCausal(env.lib, StopDef(env.dsl), entry, side, i, candles, m);
    LevelsAreCausal(env.lib, TargetDef(env.dsl), entry, side, i, candles, m);
  }

  /** One bar behaves alike on the prefix and on the full data, as long as it sees what it needs. */
  lemma StepIsCausal(env: Env, candles: seq<Candle>, m: nat, i: nat, st: Run)
    requires i < m <= |candles| && Settled(env, candles, m) && Sees(env, m, i)
    ensures Step(env, candles[..m], i, st) == Step(env, candles, i, st)
  {
    if st.position.Some? {
      DecideIsCausal(env, candles, m, i, FillLadder(env, candles[i], st.position.value));
    } else {
      EnterIsCausal(env, candles, m, i);
    }
  }

  /** The whole state of the run, not only its log, is the same at every bar both runs can see. */
  lemma {:induction false} StatesAgree(env: Env, candles: seq<Candle>, m: nat, n: nat)
    requires n <= m <= |candles| && Settled(env, candles, m)
    requires n <= 1 || Sees(env, m, n - 1)
    ensures RunTo(env, candles[..m], n) == RunTo(env, candles, n)
    decreases n
  {
    hide Step;
    if n > 1 {
      StatesAgree(env, candles, m, n - 1);
      StepIsCausal(env, candles, m, n - 1, RunTo(env, candles, n - 1));
    }
  }

  lemma {:induction false} LogGrows(env: Env, candles: seq<Candle>, m: nat, n: nat)
    requires m <= n <= |candles|
    ensures IsPrefix(RunTo(env, candles, m).log, RunTo(env, candles, n).log)
    decreases n
  {
    hide Decide;
    hide Enter;
    hide FillLadder;
    hide TradeOf;
    if m < n {
      LogGrows(env, candles, m, n - 1);
    }
  }

  lemma FinalLogGrows(env: Env, candles: seq<Candle>, n: nat)
    requires n <= |candles|
    ensures IsPrefix(RunTo(env, candles, n).log, Final(env, candles).log)
  {
    LogGrows(env, candles, n, |candles|);
  }

  /**
   * No look-ahead for fills at the bar's own open or close: the trades of the run over any prefix, without
   * its end-of-data trade, open the full run's log.
   */
  lemma NoLookAheadAtBar(env: Env, candles: seq<Candle>, m: nat)
    requires m <= |candles| && Settled(env, candles, m)
    requires env.FillMode() != AtNextOpen
    ensures RunTo(env, candles[..m], m) == RunTo(env, candles, m)
    ensures IsPrefix(RunTo(env, candles[..m], m).log, Final(env, candles).log)
  {
    StatesAgree(env, candles, m, m);
    FinalLogGrows(env, candles, m);
  }

  /** The prefix run closes its position by indicator on its very last bar. */
  predicate IndicatorExitAtEnd(env: Env, candles: seq<Candle>, m: nat)
    requires 2 <= m <= |candles|
  {
    var st := RunTo(env, candles, m - 1);
    && st.position.Some?
    && var p := FillLadder(env, candles[m - 1], st.position.value);
    && !StopHit(p.side, p.sl, candles[m - 1])
    && !TrailFires(env, p, candles[m - 1])
    && IndicatorFires(env, candles, m - 1, p.side)
  }

  /** At such an end the two runs log different exit times; otherwise the last bar logs the same. */
  lemma LastBar(env: Env, candles: seq<Candle>, m: nat)
    requires 2 <= m < |candles| && Settled(env, candles, m) && env.FillMode() == AtNextOpen
    ensures
      var st := RunTo(env, candles, m - 1);
      var short, long := Step(env, candles[..m], m - 1, st).log, Step(env, candles, m - 1, st).log;
      if IndicatorExitAtEnd(env, candles, m) then
        && |short| == |long| == |st.log| + 1
        && short[|st.log|].exitTime == candles[m - 1].openTime
        && long[|st.log|].exitTime == candles[m].openTime
      else
        short == long
  {
    hide RunTo;
    hide FillLadder;
    hide TrailNow;
    hide IndicatorFires;
    hide PnlPct;
    var st := RunTo(env, candles, m - 1);
    if st.position.Some? {
      DecideIsCausal(env, candles, m, m - 1, FillLadder(env, candles[m - 1], st.position.value));
    }
  }

  /**
   * With fills at the next open the property holds exactly unless the prefix ends on an indicator exit:
   * there the prefix run falls back to the close, while the full run waits for the next open.
   */
  lemma NoLookAheadNextOpen(env: Env, candles: seq<Candle>, m: nat)
    requires Ascending(candles) && 2 <= m < |candles| && Settled(env, candles, m)
    requires env.FillMode() == AtNextOpen
    ensures RunTo(env, candles[..m], m - 1) == RunTo(env, candles, m - 1)
    ensures IsPrefix(RunTo(env, candles[..m], m).log, Final(env, candles).log)
       <==> !IndicatorExitAtEnd(env, candles, m)
  {
    hide Step;
    hide Final;
    hide IndicatorExitAtEnd;
    StatesAgree(env, candles, m, m - 1);
    FinalLogGrows(env, candles, m);
    LastBar(env, candles, m);
    var k := |RunTo(env, candles, m - 1).log|;
    if IndicatorExitAtEnd(env, candles, m) {
      assert RunTo(env, candles[..m], m).log[k] != Final(env, candles).log[k];
    }
  }

  // ----- an example -----

  /** Always long, left on the next bar whose indicator reads positive, which is every bar. */
  function Peeking(lib: Library): Env {
    var one := IndicatorRef(ConstantBlock, NO_PARAMS.(length := Some(1.0)));
    var exit := PctExit(50.0, 50.0).(indicatorExit := Some(IndicatorExit(one, Gt, 0.0, None)));
    Env(lib, Dsl(ALWAYS_LONG, Some(exit), 1.0, None), ExecOpts(None, None, None, Some(AtNextOpen)))
  }

  const FOUR_BARS := [Bar(1, 100.0), Bar(2, 100.0), Bar(3, 100.0), Bar(4, 100.0)]

  lemma PeekingEntry(lib: Library)
    ensures
      var p := RunTo(Peeking(lib), FOUR_BARS, 2).position;
      && p.Some? && p.value.side == Long && p.value.sl == 50.0 && !p.value.trail.active && p.value.ladder == None
  {
    var env := Peeking(lib);
    AlwaysFires(lib, 1, FOUR_BARS);
    hide SignalFires;
    assert Enter(env, FOUR_BARS, 1) == Some(Flat(env, FOUR_BARS, 1, Long, (100.0, 3, 2)));
    assert RunTo(env, FOUR_BARS, 1) == START;
  }

  /** The run over three of four candles leaves on its last bar, one candle earlier than the run over all four. */
  lemma NextOpenExample(lib: Library)
    ensures IndicatorExitAtEnd(Peeking(lib), FOUR_BARS, 3)
    ensures !IsPrefix(RunTo(Peeking(lib), FOUR_BARS[..3], 3).log, Final(Peeking(lib), FOUR_BARS).log)
  {
    hide RunTo;
    hide Final;
    PeekingEntry(lib);
    CausalIsSettled(Peeking(lib), FOUR_BARS, 3);
    NoLookAheadNextOpen(Peeking(lib), FOUR_BARS, 3);
  }
}
