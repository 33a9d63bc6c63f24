/** When the adaptive backtest produces exactly the trades of the plain one. */
module AdaptiveCollapse {
  import opened Wrappers
  import opened Market
  import opened Reals
  import opened Indicators
  import opened Strategy
  import opened Backtest
  import opened LiveParity
  import opened Scenarios
  import opened Separation
  import opened TradeLabels
  import A = Adaptive

  /** The plain backtest of the same strategy under the same options, except that it fills at the close. */
  function Plain(env: A.Env): Env {
    Env(env.lib, Dsl(env.config.trendEntry, Some(env.config.exit), env.config.riskPerTradePct, None),
        env.opts.(fillAt := Some(AtClose)))
  }

  /** Both backtests charge the same fee: the taker fee is absent or equal to the legacy one. */
  predicate FeesAgree(env: A.Env) {
    Plain(env).FeeBps() == A.AdaptiveFee(env.opts)
  }

  /** One entry for both regimes, read alike by both backtests and without a proximity gate. */
  predicate Uniform(env: A.Env) {
    && env.config.trendEntry == env.config.rangeEntry
    && env.config.trendEntry.proximityFilter == None
    && SideParity(env.config.trendEntry)
  }

  /** No bar after the first falls in the neutral zone. */
  predicate NeverNeutral(env: A.Env, candles: seq<Candle>) {
    forall i :: 1 <= i < |candles| ==> A.DetermineRegime(env.lib, env.config, i, candles) != A.NeutralRegime
  }

  /** No bar fires the entry. */
  predicate NeverEnters(env: A.Env, candles: seq<Candle>) {
    forall i :: 1 <= i < |candles| ==> Enter(Plain(env), candles, i) == None
  }

  /** Levels as the schema admits them, and a volatility that is not negative. */
  ghost predicate Ordinary(env: A.Env) {
    && env.config.exit.stopLoss.value > 0.0 && env.config.exit.takeProfit.value > 0.0
    && (env.config.exit.trailingStop.Some? && Trails(env.config.exit.trailingStop.value) ==>
          env.config.exit.trailingStop.value.callbackPct.value >= 0.0)
    && forall level: ExitLevel, candles: seq<Candle>, i: int :: AtrAt(env.lib, level, candles, i) >= 0.0
  }

  // ----- trades that differ in costs only -----

  function OutcomeWith(effective: real, p: Position, raw: real, reason: ExitReason): Outcome {
    match reason
    case BySl => Loss
    case ByTp => Win
    case ByTrailing => TrailOutcome(p.side, raw, p.entry)
    case _ => OutcomeOf(p.side, effective, p.entry)
  }

  /** The trade a raw exit turns into at an effective price. */
  function Costed(p: Position, time: int, raw: real, effective: real, reason: ExitReason, bars: int): Trade {
    Trade(p.entryTime, time, p.side, p.entry, effective, p.sl, p.tp, OutcomeWith(effective, p, raw, reason),
          PnlPct(p.side, effective, p.entry), reason, bars, None)
  }

  /** Two trades that differ at most in the exit multiplier applied to one raw exit. */
  ghost predicate Twins(env: A.Env, s: Trade, t: Trade) {
    exists p, time, raw, reason, bars ::
      && s == Costed(p, time, raw, A.AdaptiveNet(env.opts, raw), reason, bars)
      && t == Costed(p, time, raw, Plain(env).Net(raw), reason, bars)
      && (Ordinary(env) ==> raw > 0.0)
  }

  lemma ExitsCoincide(env: A.Env, candles: seq<Candle>, i: nat, p: Position)
    requires i < |candles| && p.ladder == None
    ensures
      var x, y := A.AdaptiveDecide(env, candles, i, p), Decide(Plain(env), candles, i, p);
      && (x.Some? <==> y.Some?)
      && (x.Some? ==>
            && x.value.time == y.value.time && x.value.price == y.value.price && x.value.reason == y.value.reason
            && x.value.outcome == OutcomeWith(A.AdaptiveNet(env.opts, x.value.price), p, x.value.price, x.value.reason)
            && y.value.outcome == OutcomeWith(Plain(env).Net(y.value.price), p, y.value.price, y.value.reason))
  {
    hide OutcomeWith;
    hide Decide;
    hide A.AdaptiveDecide;
    ExitsAlike(env, candles, i, p);
    if Decide(Plain(env), candles, i, p).Some? {
      PlainOutcome(env, candles, i, p);
      AdaptiveOutcome(env, candles, i, p);
    }
  }

  /** Both find the same exit, whatever they label it. */
  lemma ExitsAlike(env: A.Env, candles: seq<Candle>, i: nat, p: Position)
    requires i < |candles| && p.ladder == None
    ensures
      var x, y := A.AdaptiveDecide(env, candles, i, p), Decide(Plain(env), candles, i, p);
      && (x.Some? <==> y.Some?)
      && (x.Some? ==>
            x.value.time == y.value.time && x.value.price == y.value.price && x.value.reason == y.value.reason)
  {
    hide StopHit;
    hide TargetHit;
    hide TrailNow;
    hide TrailFires;
    hide IndicatorFires;
    hide TrailOutcome;
    hide OutcomeAt;
    hide A.MoveAdaptiveTrail;
    hide A.AdaptiveTrailFires;
    hide A.AdaptiveIndicatorFires;
    hide A.AdaptiveOutcome;
    TrailsCoincide(env, candles[i], p);
    IndicatorsCoincide(env, candles, i, p.side);
  }

  lemma PlainOutcome(env: A.Env, candles: seq<Candle>, i: nat, p: Position)
    requires i < |candles| && Decide(Plain(env), candles, i, p).Some?
    ensures
      var y := Decide(Plain(env), candles, i, p).value;
      y.outcome == OutcomeWith(Plain(env).Net(y.price), p, y.price, y.reason)
  {
    ExitExplained(Plain(env), candles, i, p);
    hide Decide;
  }

  lemma AdaptiveOutcome(env: A.Env, candles: seq<Candle>, i: nat, p: Position)
    requires i < |candles| && A.AdaptiveDecide(env, candles, i, p).Some?
    ensures
      var x := A.AdaptiveDecide(env, candles, i, p).value;
      x.outcome == OutcomeWith(A.AdaptiveNet(env.opts, x.price), p, x.price, x.reason)
  {
    AdaptiveExplained(env, candles, i, p);
    hide A.AdaptiveDecide;
  }

  ghost predicate ExplainedAdaptively(env: A.Env, p: Position, x: ExitFill) {
    match x.reason
    case BySl => x.outcome == Loss
    case ByTp => x.outcome == Win
    case ByTrailing => x.outcome == TrailOutcome(p.side, x.price, p.entry)
    case _ => x.outcome == A.AdaptiveOutcome(env, p.side, p.entry, x.price)
  }

  lemma AdaptiveExplained(env: A.Env, candles: seq<Candle>, i: nat, p: Position)
    requires i < |candles| && A.AdaptiveDecide(env, candles, i, p).Some?
    ensures ExplainedAdaptively(env, p, A.AdaptiveDecide(env, candles, i, p).value)
  {
    hide StopHit;
    hide TargetHit;
    hide TrailOutcome;
    hide A.MoveAdaptiveTrail;
    hide A.AdaptiveTrailFires;
    hide A.AdaptiveIndicatorFires;
    hide A.AdaptiveOutcome;
  }

  lemma TrailsCoincide(env: A.Env, c: Candle, p: Position)
    ensures A.MoveAdaptiveTrail(env, p, c) == TrailNow(Plain(env), p, c)
    ensures A.AdaptiveTrailFires(env, p, c) <==> TrailFires(Plain(env), p, c)
  {
    hide MoveTrail;
    hide TrailHit;
  }

  lemma IndicatorsCoincide(env: A.Env, candles: seq<Candle>, i: nat, side: Side)
    ensures A.AdaptiveIndicatorFires(env, candles, i, side) <==> IndicatorFires(Plain(env), candles, i, side)
  {
    hide BacktestValue;
    hide ExitSignal;
  }

  lemma NothingToFill(env: Env, c: Candle, p: Position)
    requires p.ladder == None
    ensures FillLadder(env, c, p) == p
  {
  }

  /** The same bars fire, and the entries differ at most by their multipliers. */
  lemma EntriesFireAlike(env: A.Env, candles: seq<Candle>, i: nat)
    requires i < |candles| && Uniform(env)
    requires A.DetermineRegime(env.lib, env.config, i, candles) != A.NeutralRegime
    ensures
      var a, p := A.AdaptiveEnter(env, candles, i), Enter(Plain(env), candles, i);
      && (a.Some? <==> p.Some?)
      && (p.Some? ==>
            && a.value.p.entry == candles[i].close * A.AdaptiveEntryMult(env.opts)
            && p.value.entry == candles[i].close * Plain(env).EntryMult()
            && p.value.ladder == None)
  {
    hide A.DetermineRegime;
    hide StopPrice;
    hide TargetPrice;
    hide SignalFires;
    assert SidesAgree(env.lib, env.config.trendEntry, i, candles);
  }

  lemma EntriesCoincide(env: A.Env, candles: seq<Candle>, i: nat)
    requires i < |candles| && Uniform(env) && FeesAgree(env)
    requires A.DetermineRegime(env.lib, env.config, i, candles) != A.NeutralRegime
    ensures
      var a, p := A.AdaptiveEnter(env, candles, i), Enter(Plain(env), candles, i);
      && (a.Some? <==> p.Some?)
      && (a.Some? ==> a.value.p == p.value && p.value.ladder == None)
  {
    hide A.DetermineRegime;
    hide StopPrice;
    hide TargetPrice;
    hide SignalFires;
    assert SidesAgree(env.lib, env.config.trendEntry, i, candles);
    assert A.AdaptiveEntryMult(env.opts) == Plain(env).EntryMult();
  }

  // ----- ordinary levels are left at positive prices -----

  /** The levels a position can be left at without a candle touching them from above are positive. */
  ghost predicate LevelsPositive(p: Position) {
    && p.entry > 0.0 && p.trail.low > 0.0
    && (p.side == Long ==> p.tp > 0.0)
    && (p.side == Short ==> p.sl > 0.0 && (p.trail.active ==> p.trail.stop > 0.0))
  }

  lemma EntryLevelsPositive(env: A.Env, candles: seq<Candle>, i: nat)
    requires Ordinary(env) && i < |candles| && Enter(Plain(env), candles, i).Some?
    ensures LevelsPositive(Enter(Plain(env), candles, i).value)
  {
    hide BacktestSide;
    hide SignalFires;
    hide AtrAt;
    var p := Enter(Plain(env), candles, i).value;
    var stop, target := env.config.exit.stopLoss, env.config.exit.takeProfit;
    OutwardPositive(p.entry, target.value, AtrAt(env.lib, target, candles, i));
    OutwardPositive(p.entry, stop.value, AtrAt(env.lib, stop, candles, i));
  }

  lemma OutwardPositive(entry: real, value: real, atr: real)
    requires entry > 0.0 && value > 0.0 && atr >= 0.0
    ensures entry * (1.0 + value / 100.0) > 0.0
    ensures entry + value * atr > 0.0
  {
    MulPos(entry, 1.0 + value / 100.0);
    MulMono(0.0, value, atr);
  }

  lemma TrailKeepsPositive(env: A.Env, p: Position, c: Candle)
    requires Ordinary(env) && LevelsPositive(p)
    ensures LevelsPositive(p.(trail := TrailNow(Plain(env), p, c)))
  {
    if env.config.exit.trailingStop.Some? && Trails(env.config.exit.trailingStop.value) {
      var low := Min(c.low, p.trail.low);
      MulPos(low, 1.0 + env.config.exit.trailingStop.value.callbackPct.value / 100.0);
    }
  }

  lemma RawExitPositive(env: A.Env, candles: seq<Candle>, i: nat, p: Position)
    requires Ordinary(env) && LevelsPositive(p) && i < |candles| && Decide(Plain(env), candles, i, p).Some?
    ensures Decide(Plain(env), candles, i, p).value.price > 0.0
  {
    hide TrailNow;
    hide IndicatorFires;
    hide TimeIsUp;
    TrailKeepsPositive(env, p, candles[i]);
  }

  // ----- in step -----

  /** Same position and, trade by trade, the same raw exits. */
  ghost predicate InStep(env: A.Env, st: A.AdaptiveRun, run: Run) {
    && (st.position.Some? <==> run.position.Some?)
    && (st.position.Some? ==>
          && st.position.value.p == run.position.value && run.position.value.ladder == None
          && (Ordinary(env) ==> LevelsPositive(run.position.value)))
    && |st.log| == |run.log|
    && forall k :: 0 <= k < |st.log| ==> Twins(env, st.log[k].trade, run.log[k])
  }

  lemma RecordInStep(env: A.Env, st: A.AdaptiveRun, run: Run, x: ExitFill, y: ExitFill, bars: int)
    requires InStep(env, st, run) && st.position.Some?
    requires x.time == y.time && x.price == y.price && x.reason == y.reason
    requires x.outcome == OutcomeWith(A.AdaptiveNet(env.opts, x.price), run.position.value, x.price, x.reason)
    requires y.outcome == OutcomeWith(Plain(env).Net(y.price), run.position.value, y.price, y.reason)
    requires Ordinary(env) ==> x.price > 0.0
    ensures InStep(env, A.AdaptiveRecord(st, A.AdaptiveTradeOf(env, st.position.value, x, bars)),
                   Record(run, TradeOf(Plain(env), run.position.value, y, bars)))
  {
    hide OutcomeWith;
    hide Costed;
    hide TradeOf;
    hide A.AdaptiveTradeOf;
    hide Ordinary;
    hide LevelsPositive;
    var p := run.position.value;
    AdaptiveTradeIsCosted(env, st.position.value, x, bars);
    PlainTradeIsCosted(Plain(env), p, y, bars);
    assert Twins(env, A.AdaptiveTradeOf(env, st.position.value, x, bars).trade, TradeOf(Plain(env), p, y, bars));
  }

  lemma AdaptiveTradeIsCosted(env: A.Env, a: A.AdaptivePosition, x: ExitFill, bars: int)
    requires x.outcome == OutcomeWith(A.AdaptiveNet(env.opts, x.price), a.p, x.price, x.reason)
    ensures A.AdaptiveTradeOf(env, a, x, bars).trade
         == Costed(a.p, x.time, x.price, A.AdaptiveNet(env.opts, x.price), x.reason, bars)
  {
    hide A.AdaptiveNet;
    hide OutcomeWith;
    hide PnlPct;
  }

  lemma PlainTradeIsCosted(env: Env, p: Position, y: ExitFill, bars: int)
    requires p.ladder == None && y.outcome == OutcomeWith(env.Net(y.price), p, y.price, y.reason)
    ensures TradeOf(env, p, y, bars) == Costed(p, y.time, y.price, env.Net(y.price), y.reason, bars)
  {
    hide OutcomeWith;
    hide PnlPct;
  }

  lemma {:induction false} RunsInStep(env: A.Env, candles: seq<Candle>, n: nat)
    requires Uniform(env) && FeesAgree(env) && NeverNeutral(env, candles) && n <= |candles|
    ensures InStep(env, A.AdaptiveTo(env, candles, n), RunTo(Plain(env), candles, n))
  {
    hide Uniform;
    hide FeesAgree;
    hide Ordinary;
    hide LevelsPositive;
    hide OutcomeWith;
    hide A.AdaptiveTradeOf;
    hide TradeOf;
    hide A.DetermineRegime;
    hide A.AdaptiveDecide;
    hide A.AdaptiveEnter;
    hide Decide;
    hide Enter;
    hide FillLadder;
    hide TrailNow;
    hide A.MoveAdaptiveTrail;
    hide Twins;
    if n > 1 {
      RunsInStep(env, candles, n - 1);
      var i := n - 1;
      var st, run := A.AdaptiveTo(env, candles, i), RunTo(Plain(env), candles, i);
      if run.position.Some? {
        var p := run.position.value;
        NothingToFill(Plain(env), candles[i], p);
        TrailsCoincide(env, candles[i], p);
        ExitsCoincide(env, candles, i, p);
        var x, y := A.AdaptiveDecide(env, candles, i, p), Decide(Plain(env), candles, i, p);
        if x.Some? {
          if Ordinary(env) { RawExitPositive(env, candles, i, p); }
          RecordInStep(env, st, run, x.value, y.value, i - p.entryBar);
        } else if Ordinary(env) {
          TrailKeepsPositive(env, p, candles[i]);
        }
      } else {
        EntriesCoincide(env, candles, i);
        if Ordinary(env) && Enter(Plain(env), candles, i).Some? { EntryLevelsPositive(env, candles, i); }
      }
    }
  }

  lemma EndFillsCoincide(env: A.Env, c: Candle, p: Position)
    ensures
      var x, y := A.AdaptiveEndFill(env, c, p), EndFill(Plain(env), c, p);
      && x.time == y.time && x.price == y.price > 0.0 && x.reason == y.reason
      && x.outcome == OutcomeWith(A.AdaptiveNet(env.opts, x.price), p, x.price, x.reason)
      && y.outcome == OutcomeWith(Plain(env).Net(y.price), p, y.price, y.reason)
  {
  }

  lemma CloseOutsInStep(env: A.Env, candles: seq<Candle>, st: A.AdaptiveRun, run: Run)
    requires |candles| > 0 && InStep(env, st, run)
    ensures InStep(env, A.AdaptiveCloseOut(env, candles, st), CloseOut(Plain(env), candles, run))
  {
    hide Record;
    hide A.AdaptiveRecord;
    hide TradeOf;
    hide A.AdaptiveTradeOf;
    hide EndFill;
    hide A.AdaptiveEndFill;
    hide OutcomeWith;
    hide Twins;
    hide Ordinary;
    if run.position.Some? {
      var p, last := run.position.value, candles[|candles| - 1];
      EndFillsCoincide(env, last, p);
      RecordInStep(env, st, run, A.AdaptiveEndFill(env, last, p), EndFill(Plain(env), last, p),
                   |candles| - 1 - p.entryBar);
    }
  }

  lemma FinalsInStep(env: A.Env, candles: seq<Candle>)
    requires Uniform(env) && FeesAgree(env) && NeverNeutral(env, candles)
    ensures InStep(env, A.AdaptiveFinal(env, candles), Final(Plain(env), candles))
  {
    hide RunTo;
    hide A.AdaptiveTo;
    hide A.AdaptiveCloseOut;
    hide CloseOut;
    if |candles| >= 2 {
      RunsInStep(env, candles, |candles|);
      CloseOutsInStep(env, candles, A.AdaptiveTo(env, candles, |candles|), RunTo(Plain(env), candles, |candles|));
    }
  }

  /** Twins are equal exactly if the multipliers are, or both exits are worth nothing. */
  lemma TwinsEqual(env: A.Env, s: Trade, t: Trade)
    requires Twins(env, s, t)
    ensures s == t <==>
      A.AdaptiveExitMult(env.opts) == Plain(env).ExitMult() || (s.exitPrice == 0.0 && t.exitPrice == 0.0)
    ensures Ordinary(env) && s.exitPrice == 0.0 && t.exitPrice == 0.0 ==>
      A.AdaptiveExitMult(env.opts) == Plain(env).ExitMult()
  {
    hide Ordinary;
    hide PnlPct;
    var p, time, raw, reason, bars :|
      && s == Costed(p, time, raw, A.AdaptiveNet(env.opts, raw), reason, bars)
      && t == Costed(p, time, raw, Plain(env).Net(raw), reason, bars)
      && (Ordinary(env) ==> raw > 0.0);
    ProductsEqual(raw, A.AdaptiveExitMult(env.opts), Plain(env).ExitMult(), s.exitPrice, t.exitPrice);
  }

  lemma ProductsEqual(raw: real, a: real, b: real, x: real, y: real)
    requires x == raw * a && y == raw * b
    ensures x == y <==> a == b || (x == 0.0 && y == 0.0)
    ensures raw > 0.0 && x == 0.0 && y == 0.0 ==> a == b
  {
    if raw > 0.0 {
      if a < b { MulStrict(a, b, raw); }
      if b < a { MulStrict(b, a, raw); }
    } else if raw < 0.0 {
      if a < b { MulStrict(a, b, -raw); }
      if b < a { MulStrict(b, a, -raw); }
    }
  }

  // ----- the first entry -----

  /** The run's first entry was at price `e`. */
  ghost predicate OpenedAt(run: Run, e: real) {
    if run.log == [] then run.position.Some? && run.position.value.entry == e && run.position.value.ladder == None
    else run.log[0].entryPrice == e
  }

  ghost predicate AdaptiveOpenedAt(st: A.AdaptiveRun, e: real) {
    if st.log == [] then st.position.Some? && st.position.value.p.entry == e else st.log[0].trade.entryPrice == e
  }

  lemma StepKeepsOpening(env: A.Env, candles: seq<Candle>, i: nat, run: Run, e: real)
    requires i < |candles| && OpenedAt(run, e)
    ensures OpenedAt(Step(Plain(env), candles, i, run), e)
  {
    hide Decide;
    hide Enter;
    hide TrailNow;
    hide PnlPct;
    if run.position.Some? && run.position.value.ladder == None {
      NothingToFill(Plain(env), candles[i], run.position.value);
    }
  }

  lemma AdaptiveStepKeepsOpening(env: A.Env, candles: seq<Candle>, i: nat, st: A.AdaptiveRun, e: real)
    requires i < |candles| && AdaptiveOpenedAt(st, e)
    ensures AdaptiveOpenedAt(A.AdaptiveStep(env, candles, i, st), e)
  {
    hide A.AdaptiveDecide;
    hide A.AdaptiveEnter;
    hide A.MoveAdaptiveTrail;
    hide PnlPct;
  }

  /** Before the first bar that fires, both runs are untouched. */
  lemma {:induction false} FlatUntil(env: A.Env, candles: seq<Candle>, n: nat)
    requires Uniform(env) && NeverNeutral(env, candles) && n <= |candles|
    requires forall i :: 1 <= i < n ==> Enter(Plain(env), candles, i) == None
    ensures RunTo(Plain(env), candles, n) == START
    ensures A.AdaptiveTo(env, candles, n) == A.ADAPTIVE_START
  {
    hide Enter;
    hide A.AdaptiveEnter;
    hide Uniform;
    hide A.DetermineRegime;
    if n > 1 {
      FlatUntil(env, candles, n - 1);
      EntriesFireAlike(env, candles, n - 1);
    }
  }

  /** From the first bar that fires on, each run's first entry is that bar's close under its own multiplier. */
  lemma {:induction false} FirstEntries(env: A.Env, candles: seq<Candle>, b: nat, n: nat)
    requires Uniform(env) && NeverNeutral(env, candles) && 1 <= b < n <= |candles|
    requires forall i :: 1 <= i < b ==> Enter(Plain(env), candles, i) == None
    requires Enter(Plain(env), candles, b).Some?
    ensures OpenedAt(RunTo(Plain(env), candles, n), candles[b].close * Plain(env).EntryMult())
    ensures AdaptiveOpenedAt(A.AdaptiveTo(env, candles, n), candles[b].close * A.AdaptiveEntryMult(env.opts))
    decreases n
  {
    hide Enter;
    hide A.AdaptiveEnter;
    hide Uniform;
    hide A.DetermineRegime;
    var x, y := candles[b].close * Plain(env).EntryMult(), candles[b].close * A.AdaptiveEntryMult(env.opts);
    if n == b + 1 {
      FlatUntil(env, candles, b);
      EntriesFireAlike(env, candles, b);
    } else {
      FirstEntries(env, candles, b, n - 1);
      hide Step;
      hide A.AdaptiveStep;
      hide OpenedAt;
      hide AdaptiveOpenedAt;
      StepKeepsOpening(env, candles, n - 1, RunTo(Plain(env), candles, n - 1), x);
      AdaptiveStepKeepsOpening(env, candles, n - 1, A.AdaptiveTo(env, candles, n - 1), y);
    }
  }

  lemma FinalEntries(env: A.Env, candles: seq<Candle>, b: nat)
    requires Uniform(env) && NeverNeutral(env, candles) && 1 <= b < |candles|
    requires forall i :: 1 <= i < b ==> Enter(Plain(env), candles, i) == None
    requires Enter(Plain(env), candles, b).Some?
    ensures
      var s, t := A.AdaptiveFinal(env, candles).log, Final(Plain(env), candles).log;
      && |s| > 0 && |t| > 0
      && s[0].trade.entryPrice == candles[b].close * A.AdaptiveEntryMult(env.opts)
      && t[0].entryPrice == candles[b].close * Plain(env).EntryMult()
  {
    hide RunTo;
    hide A.AdaptiveTo;
    hide Enter;
    hide PnlPct;
    hide Uniform;
    hide NeverNeutral;
    FirstEntries(env, candles, b, |candles|);
  }

  lemma {:induction false} FirstFiring(env: A.Env, candles: seq<Candle>, n: nat) returns (b: nat)
    requires 1 <= n < |candles| && Enter(Plain(env), candles, n).Some?
    ensures 1 <= b < |candles| && Enter(Plain(env), candles, b).Some?
    ensures forall i :: 1 <= i < b ==> Enter(Plain(env), candles, i) == None
  {
    hide Enter;
    b := n;
    if i :| 1 <= i < n && Enter(Plain(env), candles, i).Some? {
      b := FirstFiring(env, candles, i);
    }
  }

  // ----- the theorem -----

  predicate SameTrades(s: seq<A.AdaptiveTrade>, t: seq<Trade>) {
    |s| == |t| && forall k :: 0 <= k < |s| ==> s[k].trade == t[k]
  }

  predicate AllWorthless(s: seq<A.AdaptiveTrade>, t: seq<Trade>) {
    |s| == |t| && forall k :: 0 <= k < |s| ==> s[k].trade.exitPrice == 0.0 && t[k].exitPrice == 0.0
  }

  lemma ExitMultsAgree(env: A.Env)
    requires FeesAgree(env)
    ensures A.AdaptiveExitMult(env.opts) == Plain(env).ExitMult() <==> A.AdaptiveSlippage(env.opts) == 0.0
  {
  }

  /** Under equal fees the logs agree exactly without slippage, or if nothing is worth anything at the exits. */
  lemma EqualFees(env: A.Env, candles: seq<Candle>)
    requires Uniform(env) && NeverNeutral(env, candles) && FeesAgree(env)
    ensures
      var s, t := A.AdaptiveFinal(env, candles).log, Final(Plain(env), candles).log;
      && (SameTrades(s, t) <==> A.AdaptiveSlippage(env.opts) == 0.0 || AllWorthless(s, t))
      && (Ordinary(env) && |s| > 0 && AllWorthless(s, t) ==> A.AdaptiveSlippage(env.opts) == 0.0)
  {
    FinalsInStep(env, candles);
    ExitMultsAgree(env);
    hide Twins;
    hide Final;
    hide A.AdaptiveFinal;
    hide Ordinary;
    hide FeesAgree;
    hide Uniform;
    hide NeverNeutral;
    var s, t := A.AdaptiveFinal(env, candles).log, Final(Plain(env), candles).log;
    forall k | 0 <= k < |s|
      ensures s[k].trade == t[k] <==>
        A.AdaptiveSlippage(env.opts) == 0.0 || (s[k].trade.exitPrice == 0.0 && t[k].exitPrice == 0.0)
      ensures Ordinary(env) && s[k].trade.exitPrice == 0.0 && t[k].exitPrice == 0.0 ==>
        A.AdaptiveSlippage(env.opts) == 0.0
    {
      TwinsEqual(env, s[k].trade, t[k]);
    }
    if Ordinary(env) && |s| > 0 && AllWorthless(s, t) {
      assert s[0].trade.exitPrice == 0.0 && t[0].exitPrice == 0.0;
    }
    if !AllWorthless(s, t) && SameTrades(s, t) {
      var k :| 0 <= k < |s| && !(s[k].trade.exitPrice == 0.0 && t[k].exitPrice == 0.0);
      assert s[k].trade == t[k];
    }
  }

  /** Different fees show in the entry price of the first trade. */
  lemma DifferentFees(env: A.Env, candles: seq<Candle>, b: nat)
    requires Uniform(env) && NeverNeutral(env, candles) && !FeesAgree(env) && 1 <= b < |candles|
    requires forall i :: 1 <= i < b ==> Enter(Plain(env), candles, i) == None
    requires Enter(Plain(env), candles, b).Some?
    ensures !SameTrades(A.AdaptiveFinal(env, candles).log, Final(Plain(env), candles).log)
  {
    hide Enter;
    hide Final;
    hide A.AdaptiveFinal;
    hide Uniform;
    hide NeverNeutral;
    FinalEntries(env, candles, b);
    var m, n, close := A.AdaptiveEntryMult(env.opts), Plain(env).EntryMult(), candles[b].close;
    assert m != n;
    if m < n { MulStrict(m, n, close); } else { MulStrict(n, m, close); }
  }

  /**
   * Adaptive collapse: with one entry for both regimes and no neutral bar, the two programs given the same
   * options log the same trades exactly when nothing fires, or the fees they read agree and there is no
   * slippage (or every exit is worth nothing, so that no cost shows).
   */
  lemma CollapseExactly(env: A.Env, candles: seq<Candle>)
    requires Uniform(env) && NeverNeutral(env, candles)
    ensures
      var s, t := A.AdaptiveFinal(env, candles).log, Final(Plain(env), candles).log;
      SameTrades(s, t) <==>
        || NeverEnters(env, candles)
        || (FeesAgree(env) && (A.AdaptiveSlippage(env.opts) == 0.0 || AllWorthless(s, t)))
  {
    hide Enter;
    hide Uniform;
    hide NeverNeutral;
    hide FeesAgree;
    if NeverEnters(env, candles) {
      FlatUntil(env, candles, |candles|);
      assert SameTrades([], []);
    } else {
      hide Final;
      hide A.AdaptiveFinal;
      var n :| 1 <= n < |candles| && Enter(Plain(env), candles, n) != None;
      var b := FirstFiring(env, candles, n);
      if FeesAgree(env) {
        EqualFees(env, candles);
      } else {
        DifferentFees(env, candles, b);
      }
    }
  }

  /** With levels the schema admits, the condition is one on the options alone, as soon as anything fires. */
  lemma OrdinaryCollapseExactly(env: A.Env, candles: seq<Candle>)
    requires Uniform(env) && NeverNeutral(env, candles) && Ordinary(env)
    ensures
      SameTrades(A.AdaptiveFinal(env, candles).log, Final(Plain(env), candles).log) <==>
        NeverEnters(env, candles) || (FeesAgree(env) && A.AdaptiveSlippage(env.opts) == 0.0)
  {
    hide Enter;
    hide Uniform;
    hide NeverNeutral;
    hide FeesAgree;
    hide Ordinary;
    hide Final;
    hide A.AdaptiveFinal;
    CollapseExactly(env, candles);
    if FeesAgree(env) && !NeverEnters(env, candles) {
      var n :| 1 <= n < |candles| && Enter(Plain(env), candles, n) != None;
      var b := FirstFiring(env, candles, n);
      FinalEntries(env, candles, b);
      EqualFees(env, candles);
    }
  }

  // ----- examples -----

  /** Always trending, always long. */
  function Trend(opts: ExecOpts): A.Env {
    A.Env(Only(Adx(14.0), 30.0),
          A.AdaptiveConfig(14.0, 25.0, 20.0, ALWAYS_LONG, ALWAYS_LONG, PctExit(50.0, 50.0), 1.0),
          opts)
  }

  const TWO_BARS := [Bar(1, 100.0), Bar(2, 100.0)]

  lemma TrendIsOrdinary(opts: ExecOpts)
    ensures Uniform(Trend(opts)) && NeverNeutral(Trend(opts), TWO_BARS) && Ordinary(Trend(opts))
    ensures !NeverEnters(Trend(opts), TWO_BARS)
  {
    var env := Trend(opts);
    var lib := env.lib;
    OnlyValue(Adx(14.0), 30.0, Computed(Adx(14.0), Main), TWO_BARS, 1);
    assert A.DetermineRegime(lib, env.config, 1, TWO_BARS) == A.Trending;
    forall level: ExitLevel, candles: seq<Candle>, i: int
      ensures AtrAt(lib, level, candles, i) >= 0.0
    {
      OnlyAt(Adx(14.0), 30.0, Atr(level.atrPeriod.Else(14.0)), Main, candles, i);
    }
    FiresOnTwoBars(env);
  }

  lemma FiresOnTwoBars(env: A.Env)
    requires env.config.trendEntry == ALWAYS_LONG
    ensures Enter(Plain(env), TWO_BARS, 1).Some?
  {
    hide SignalFires;
    AlwaysFires(env.lib, 1, TWO_BARS);
  }

  /** With slippage alone, and with a taker fee alone, the two backtests log different trades. */
  lemma DivergenceExamples()
    ensures
      var slipping := Trend(ExecOpts(None, None, Some(10.0), None));
      var taker := Trend(ExecOpts(Some(10.0), None, None, None));
      && FeesAgree(slipping) && !FeesAgree(taker)
      && !SameTrades(A.AdaptiveFinal(slipping, TWO_BARS).log, Final(Plain(slipping), TWO_BARS).log)
      && !SameTrades(A.AdaptiveFinal(taker, TWO_BARS).log, Final(Plain(taker), TWO_BARS).log)
  {
    var slip, fee := ExecOpts(None, None, Some(10.0), None), ExecOpts(Some(10.0), None, None, None);
    TrendIsOrdinary(slip);
    TrendIsOrdinary(fee);
    hide Uniform;
    hide NeverNeutral;
    hide NeverEnters;
    hide Ordinary;
    hide Final;
    hide A.AdaptiveFinal;
    OrdinaryCollapseExactly(Trend(slip), TWO_BARS);
    OrdinaryCollapseExactly(Trend(fee), TWO_BARS);
  }
}
