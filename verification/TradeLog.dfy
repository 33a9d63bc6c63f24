/** Accounting of the trade log: times, profit totals and drawdown (`recordTrade` and the report). */
module TradeLog {
  import opened Wrappers
  import opened Market
  import opened Backtest

  // ----- times -----

  /** The last bar a fill made while processing bar `n - 1` can carry. */
  function LastFillBar(env: Env, candles: seq<Candle>, n: nat): int
    requires 1 <= n <= |candles|
  {
    if env.FillMode() == AtNextOpen && n < |candles| then n else n - 1
  }

  /** Trades are well timed and do not overlap. */
  ghost predicate Chronological(log: seq<Trade>) {
    && (forall k :: 0 <= k < |log| ==> log[k].entryTime <= log[k].exitTime && log[k].barsHeld >= 0)
    && (forall j, k :: 0 <= j < k < |log| ==> log[j].exitTime < log[k].entryTime)
  }

  ghost predicate TimesOk(env: Env, candles: seq<Candle>, n: nat, st: Run)
    requires 1 <= n <= |candles|
  {
    var e := LastFillBar(env, candles, n);
    && Chronological(st.log)
    && (forall k :: 0 <= k < |st.log| ==> st.log[k].exitTime <= candles[e].openTime)
    && (st.position.Some? ==>
          var p := st.position.value;
          && 0 <= p.entryBar <= e
          && p.entryTime == candles[p.entryBar].openTime
          && forall k :: 0 <= k < |st.log| ==> st.log[k].exitTime < p.entryTime)
  }

  lemma LogAppend(log: seq<Trade>, t: Trade)
    requires Chronological(log) && t.entryTime <= t.exitTime && t.barsHeld >= 0
    requires forall k :: 0 <= k < |log| ==> log[k].exitTime < t.entryTime
    ensures Chronological(log + [t])
  {
  }

  lemma StepKeepsTimes(env: Env, candles: seq<Candle>, n: nat, st: Run)
    requires Ascending(candles) && 1 <= n < |candles|
    requires TimesOk(env, candles, n, st)
    ensures TimesOk(env, candles, n + 1, Step(env, candles, n, st))
  {
    hide StopHit;
    hide TargetHit;
    hide TrailFires;
    hide IndicatorFires;
    if st.position.Some? {
      var p := FillLadder(env, candles[n], st.position.value);
      var x := Decide(env, candles, n, p);
      if x.Some? {
        assert x.value.time in {candles[n].openTime, candles[LastFillBar(env, candles, n + 1)].openTime};
        LogAppend(st.log, TradeOf(env, p, x.value, n - p.entryBar));
      }
    }
  }

  lemma {:induction false} RunKeepsTimes(env: Env, candles: seq<Candle>, n: nat)
    requires Ascending(candles) && 1 <= n <= |candles|
    ensures TimesOk(env, candles, n, RunTo(env, candles, n))
    decreases n
  {
    if n > 1 {
      RunKeepsTimes(env, candles, n - 1);
      StepKeepsTimes(env, candles, n - 1, RunTo(env, candles, n - 1));
    }
  }

  /** In every fill mode: no trade exits before it enters, none overlaps the next, none has negative length. */
  lemma LogIsChronological(env: Env, candles: seq<Candle>)
    requires Ascending(candles)
    ensures Chronological(Final(env, candles).log)
  {
    if |candles| >= 2 {
      RunKeepsTimes(env, candles, |candles|);
      var st := RunTo(env, candles, |candles|);
      if st.position.Some? {
        LogAppend(st.log, CloseOut(env, candles, st).log[|st.log|]);
      }
    }
  }

  // ----- profit and drawdown -----

  /** Sum of the first `n` trades' profits. */
  function PrefixSum(log: seq<Trade>, n: nat): real
    requires n <= |log|
  {
    if n == 0 then 0.0 else PrefixSum(log, n - 1) + log[n - 1].pnlPct
  }

  ghost predicate IsPeak(log: seq<Trade>, peak: real) {
    && (forall i: nat :: i <= |log| ==> PrefixSum(log, i) <= peak)
    && (exists i: nat :: i <= |log| && PrefixSum(log, i) == peak)
  }

  /** `dd` is the largest fall of the running total from an earlier value to a later one. */
  ghost predicate IsMaxDrawdown(log: seq<Trade>, dd: real) {
    && (forall i: nat, j: nat :: i <= j <= |log| ==> PrefixSum(log, i) - PrefixSum(log, j) <= dd)
    && (exists i: nat, j: nat :: i <= j <= |log| && PrefixSum(log, i) - PrefixSum(log, j) == dd)
  }

  ghost predicate Accounted(st: Run) {
    && st.cumulative == PrefixSum(st.log, |st.log|)
    && IsPeak(st.log, st.peak)
    && IsMaxDrawdown(st.log, st.maxDrawdown)
  }

  lemma {:induction false} PrefixSumStable(log: seq<Trade>, t: Trade, n: nat)
    requires n <= |log|
    ensures PrefixSum(log + [t], n) == PrefixSum(log, n)
  {
    if n > 0 {
      PrefixSumStable(log, t, n - 1);
    }
  }

  lemma RecordKeepsAccounts(st: Run, t: Trade)
    requires Accounted(st)
    ensures Accounted(Record(st, t))
  {
    var log, next := st.log + [t], Record(st, t);
    var n := |st.log|;
    forall i: nat | i <= n ensures PrefixSum(log, i) == PrefixSum(st.log, i) {
      PrefixSumStable(st.log, t, i);
    }
    assert PrefixSum(log, n + 1) == next.cumulative;
    assert IsPeak(log, next.peak) by {
      if next.peak == st.peak {
        var i: nat :| i <= n && PrefixSum(st.log, i) == st.peak;
        assert PrefixSum(log, i) == next.peak;
      }
    }
    PeakFall(st, t);
  }

  lemma PeakFall(st: Run, t: Trade)
    requires Accounted(st)
    requires forall i: nat :: i <= |st.log| ==> PrefixSum(st.log + [t], i) == PrefixSum(st.log, i)
    requires IsPeak(st.log + [t], Record(st, t).peak)
    requires PrefixSum(st.log + [t], |st.log| + 1) == Record(st, t).cumulative
    ensures IsMaxDrawdown(st.log + [t], Record(st, t).maxDrawdown)
  {
    var log, next := st.log + [t], Record(st, t);
    if next.maxDrawdown == st.maxDrawdown {
      var i: nat, j: nat :| i <= j <= |st.log| && PrefixSum(st.log, i) - PrefixSum(st.log, j) == st.maxDrawdown;
      assert PrefixSum(log, i) - PrefixSum(log, j) == next.maxDrawdown;
    } else {
      var i: nat :| i <= |log| && PrefixSum(log, i) == next.peak;
      assert PrefixSum(log, i) - PrefixSum(log, |log|) == next.maxDrawdown;
    }
  }

  lemma {:induction false} RunIsAccounted(env: Env, candles: seq<Candle>, n: nat)
    requires n <= |candles|
    ensures Accounted(RunTo(env, candles, n))
  {
    hide Accounted;
    hide FillLadder;
    hide Decide;
    hide TradeOf;
    hide Enter;
    if n > 1 {
      RunIsAccounted(env, candles, n - 1);
      var st := RunTo(env, candles, n - 1);
      PositionIsNoAccount(st, RunTo(env, candles, n).position);
      if st.position.Some? {
        var p := FillLadder(env, candles[n - 1], st.position.value);
        var x := Decide(env, candles, n - 1, p);
        if x.Some? {
          RecordKeepsAccounts(st, TradeOf(env, p, x.value, n - 1 - p.entryBar));
        }
      }
    } else {
      NothingIsAccounted();
    }
  }

  lemma PositionIsNoAccount(st: Run, position: Option<Position>)
    requires Accounted(st)
    ensures Accounted(st.(position := position))
  {
  }

  lemma NothingIsAccounted()
    ensures Accounted(START)
  {
    assert PrefixSum([], 0) == 0.0;
  }

  /** The reported totals are the log's sum and its largest peak-to-trough fall, starting from zero. */
  lemma ReportIsAccounted(env: Env, candles: seq<Candle>)
    ensures Accounted(Final(env, candles))
  {
    if |candles| >= 2 {
      RunIsAccounted(env, candles, |candles|);
      var st := RunTo(env, candles, |candles|);
      if st.position.Some? {
        RecordKeepsAccounts(st, CloseOut(env, candles, st).log[|st.log|]);
      }
    } else {
      NothingIsAccounted();
    }
  }
}
