/** When the label of a trailing-stop exit tells the truth, in terms of the strategy's options alone. */
module TrailLabels {
  import opened Wrappers
  import opened Market
  import opened Reals
  import opened Indicators
  import opened DcaPlanning
  import opened DcaLadder
  import opened Strategy
  import opened Backtest
  import opened BacktestInvariants
  import opened Scenarios
  import opened TradeLabels

  /** The strategy trails by these percentages; the schema asks for positive ones. */
  predicate TrailsBy(env: Env, activation: real, callback: real) {
    && env.dsl.exit.Some?
    && env.dsl.exit.value.trailingStop == Some(TrailingStop(true, Some(activation), Some(callback)))
  }

  /** The multiple of the entry at which an active stop lies at worst. */
  function Keeps(activation: real, callback: real, side: Side): real {
    FavourFactor(activation, side) * AgainstFactor(callback, side)
  }

  // ----- the invariant -----

  /** A long stop lies at or above that multiple of the entry, a short one at or below. */
  predicate AtLeastKept(kept: real, side: Side, entry: real, stop: real) {
    match side
    case Long => stop >= entry * kept
    case Short => 0.0 < stop <= entry * kept
  }

  /** A long callback of 100% puts the stop where no price is, a short activation of as much is never reached. */
  predicate CanTrail(activation: real, callback: real, side: Side) {
    if side == Long then callback < 100.0 else activation < 100.0
  }

  predicate StopKept(activation: real, callback: real, side: Side, entry: real, stop: real) {
    CanTrail(activation, callback, side) && AtLeastKept(Keeps(activation, callback, side), side, entry, stop)
  }

  predicate TrailKept(activation: real, callback: real, side: Side, entry: real, t: Trail) {
    && t.high > 0.0 && t.low > 0.0
    && (t.active ==> StopKept(activation, callback, side, entry, t.stop)
                     || (side == Long && callback >= 100.0 && t.stop <= 0.0))
  }

  lemma StopFromMark(mark: real, entry: real, f: real, g: real, level: real, stop: real, kept: real)
    requires level == entry * f && stop == mark * g && kept == entry * (f * g) && g >= 0.0
    ensures mark >= level ==> stop >= kept
    ensures mark <= level ==> stop <= kept
  {
    assert level * g == kept;
    if mark >= level { MulMono(level, mark, g); }
    if mark <= level { MulMono(mark, level, g); }
  }

  lemma NotPositive(a: real, b: real)
    requires a > 0.0
    ensures b <= 0.0 ==> a * b <= 0.0
    ensures b > 0.0 ==> a * b > 0.0
  {
  }

  lemma MarkKept(side: Side, entry: real, f: real, g: real, mark: real, level: real, stop: real)
    requires mark > 0.0 && g > 0.0 && level == entry * f && stop == mark * g
    requires if side == Long then mark >= level else mark <= level
    ensures AtLeastKept(f * g, side, entry, stop)
  {
    NotPositive(mark, g);
    StopFromMark(mark, entry, f, g, level, stop, entry * (f * g));
  }

  /** The stop a water mark gives once it has reached the activation. */
  lemma ReachedIsKept(side: Side, entry: real, mark: real, a: real, b: real)
    requires a > 0.0 && b > 0.0 && entry > 0.0 && mark > 0.0
    requires if side == Long then mark >= InFavour(entry, a, Long) else mark <= InFavour(entry, a, Short)
    ensures StopKept(a, b, side, entry, Against(mark, b, side))
            || (side == Long && b >= 100.0 && Against(mark, b, side) <= 0.0)
  {
    var f, g := FavourFactor(a, side), AgainstFactor(b, side);
    FactorOfPercent(entry, a, side);
    FactorOfPercent(mark, b, side);
    NotPositive(entry, f);
    NotPositive(mark, g);
    hide AtLeastKept;
    if g > 0.0 {
      MarkKept(side, entry, f, g, mark, InFavour(entry, a, side), Against(mark, b, side));
    }
  }

  lemma MoveKeeps(ts: TrailingStop, side: Side, entry: real, t: Trail, c: Candle, a: real, b: real)
    requires ts == TrailingStop(true, Some(a), Some(b)) && a > 0.0 && b > 0.0 && entry > 0.0
    requires TrailKept(a, b, side, entry, t)
    ensures TrailKept(a, b, side, entry, MoveTrail(ts, side, entry, t, c))
  {
    hide InFavour;
    hide Against;
    hide StopKept;
    var moved := MoveTrail(ts, side, entry, t, c);
    var mark := if side == Long then moved.high else moved.low;
    if if side == Long then mark >= InFavour(entry, a, Long) else mark <= InFavour(entry, a, Short) {
      ReachedIsKept(side, entry, mark, a, b);
    }
  }

  /** Fills only move the entry away, so what an earlier activation left behind is kept. */
  lemma EntryMovesAway(a: real, b: real, side: Side, entry: real, better: real, t: Trail)
    requires a > 0.0 && b > 0.0 && TrailKept(a, b, side, entry, t)
    requires better == entry || Beyond(better, entry, side)
    ensures TrailKept(a, b, side, better, t)
  {
    var r := Keeps(a, b, side);
    if t.active && StopKept(a, b, side, entry, t.stop) {
      NotPositive(FavourFactor(a, side), AgainstFactor(b, side));
      if side == Long { MulMono(better, entry, r); } else { MulMono(entry, better, r); }
    }
  }

  lemma FillMovesAway(env: Env, c: Candle, p: Position)
    requires PositionOk(env, p)
    ensures
      var q := FillLadder(env, c, p);
      q.side == p.side && q.trail == p.trail && (q.entry == p.entry || Beyond(q.entry, p.entry, p.side))
  {
    if p.ladder.Some? && ReachedCount(p.ladder.value.pending, c, p.side) > 0 {
      var config, l := env.dsl.dca.value, p.ladder.value;
      var base, k, n := l.state.fills[0].price, l.state.safetyOrdersFilled, ReachedCount(l.pending, c, p.side);
      assert l.pending[..n] == Levels(config, base, p.side, config.maxSafetyOrders)[k..k + n];
      FillsNeverWorsenEntry(config, base, p.side, l.slPct, k, n, l.state);
    }
  }

  // ----- over whole runs -----

  /** A trailing exit left at a stop that was kept. */
  ghost predicate TrailedWell(env: Env, a: real, b: real, t: Trade) {
    t.reason == ByTrailing ==> exists stop :: TrailedAt(env, t, stop) && StopKept(a, b, t.side, t.entryPrice, stop)
  }

  ghost predicate AllTrailedWell(env: Env, a: real, b: real, log: seq<Trade>) {
    forall k :: 0 <= k < |log| ==> TrailedWell(env, a, b, log[k])
  }

  predicate PositionTrails(a: real, b: real, p: Position) {
    p.entry > 0.0 && TrailKept(a, b, p.side, p.entry, p.trail)
  }

  lemma OpenTrails(env: Env, candles: seq<Candle>, i: nat, side: Side, fill: (Price, int, nat), a: real, b: real)
    requires i < |candles|
    ensures PositionTrails(a, b, Open(env, candles, i, side, fill))
  {
    OpenIsOk(env, candles, i, side, fill);
    hide StopKept;
    hide PositionOk;
  }

  /** A hit trailing stop is one that was kept: below zero there is no price. */
  lemma HitIsKept(env: Env, candles: seq<Candle>, i: nat, p: Position, a: real, b: real)
    requires i < |candles| && TrailsBy(env, a, b) && a > 0.0 && b > 0.0 && PositionTrails(a, b, p)
    ensures PositionTrails(a, b, p.(trail := TrailNow(env, p, candles[i])))
    ensures
      var x := Decide(env, candles, i, p);
      x.Some? && x.value.reason == ByTrailing ==>
        && StopKept(a, b, p.side, p.entry, x.value.price)
        && x.value.outcome == TrailOutcome(p.side, x.value.price, p.entry)
  {
    MoveKeeps(env.dsl.exit.value.trailingStop.value, p.side, p.entry, p.trail, candles[i], a, b);
    hide MoveTrail;
    hide StopKept;
    hide OutcomeAt;
    hide SignalFill;
    hide IndicatorFires;
    hide TrailOutcome;
  }

  lemma TradeTrailedWell(env: Env, p: Position, x: ExitFill, bars: int, a: real, b: real)
    requires x.reason == ByTrailing ==>
      StopKept(a, b, p.side, p.entry, x.price) && x.outcome == TrailOutcome(p.side, x.price, p.entry)
    ensures TrailedWell(env, a, b, TradeOf(env, p, x, bars))
  {
    hide StopKept;
    hide TrailOutcome;
    hide PnlPct;
    if x.reason == ByTrailing {
      assert TrailedAt(env, TradeOf(env, p, x, bars), x.price);
    }
  }

  lemma {:induction false} RunTrailsWell(env: Env, candles: seq<Candle>, n: nat, a: real, b: real)
    requires n <= |candles| && TrailsBy(env, a, b) && a > 0.0 && b > 0.0
    ensures
      var st := RunTo(env, candles, n);
      AllTrailedWell(env, a, b, st.log) && (st.position.Some? ==> PositionTrails(a, b, st.position.value))
  {
    hide TrailedWell;
    hide TrailKept;
    hide Decide;
    hide FillLadder;
    hide TradeOf;
    hide Open;
    hide PositionOk;
    hide StopKept;
    hide TrailOutcome;
    hide TrailNow;
    if n > 1 {
      RunTrailsWell(env, candles, n - 1, a, b);
      RunInvariant(env, candles, n - 1);
      var st, i := RunTo(env, candles, n - 1), n - 1;
      if st.position.Some? {
        var before := st.position.value;
        var p := FillLadder(env, candles[i], before);
        FillMovesAway(env, candles[i], before);
        FillLadderKeeps(env, candles[i], before);
        EntryStaysPositive(env, p);
        EntryMovesAway(a, b, before.side, before.entry, p.entry, before.trail);
        HitIsKept(env, candles, i, p, a, b);
        if Decide(env, candles, i, p).Some? {
          TradeTrailedWell(env, p, Decide(env, candles, i, p).value, i - p.entryBar, a, b);
        }
      } else if Enter(env, candles, i).Some? {
        var side, fill := BacktestSide(env.lib, env.dsl.entry, i, candles), EntryFill(env, candles, i);
        OpenTrails(env, candles, i, side.value, fill.value, a, b);
      }
    }
  }

  lemma EntryStaysPositive(env: Env, p: Position)
    requires PositionOk(env, p)
    ensures p.entry > 0.0
  {
  }

  lemma FinalTrailsWell(env: Env, candles: seq<Candle>, a: real, b: real)
    requires TrailsBy(env, a, b) && a > 0.0 && b > 0.0
    ensures AllTrailedWell(env, a, b, Final(env, candles).log)
  {
    hide RunTo;
    hide PnlPct;
    hide OutcomeAt;
    if |candles| >= 2 {
      RunTrailsWell(env, candles, |candles|, a, b);
    }
  }

  // ----- the exact condition -----

  /** A condition on the options: what the trail keeps of the entry, and what is left of that after costs. */
  predicate KeepsTruth(side: Side, a: real, b: real, mult: real) {
    CanTrail(a, b, side) ==> PaysAfterCosts(Keeps(a, b, side), side, mult)
  }

  predicate PaysAfterCosts(kept: real, side: Side, mult: real) {
    Gains(kept, mult, side) && (side == Short ==> kept <= 1.0)
  }

  lemma KeepsPositive(activation: real, callback: real, side: Side)
    requires activation > 0.0 && callback > 0.0
    requires CanTrail(activation, callback, side)
    ensures Keeps(activation, callback, side) > 0.0
  {
    NotPositive(FavourFactor(activation, side), AgainstFactor(callback, side));
  }

  /** A kept stop is labelled with the sign of its profit. */
  lemma KeptIsTrue(t: Trade, stop: real, a: real, b: real, mult: real)
    requires a > 0.0 && b > 0.0 && mult <= 1.0 && t.entryPrice > 0.0
    requires StopKept(a, b, t.side, t.entryPrice, stop) && KeepsTruth(t.side, a, b, mult)
    requires t.exitPrice == stop * mult && t.outcome == TrailOutcome(t.side, stop, t.entryPrice)
    requires t.pnlPct == PnlPct(t.side, t.exitPrice, t.entryPrice)
    ensures LabelMatches(t)
  {
    SignOfPnl(t.side, t.exitPrice, t.entryPrice);
    KeepsPositive(a, b, t.side);
    hide PnlPct;
    hide Keeps;
    hide AtLeastKept;
    hide PaysAfterCosts;
    KeptSide(t.side, t.entryPrice, Keeps(a, b, t.side), mult, stop, t.exitPrice);
  }

  /** The stop is on the profitable side of the entry, before costs and after. */
  lemma KeptSide(side: Side, entry: real, kept: real, mult: real, stop: real, exit: real)
    requires entry > 0.0 && kept > 0.0 && mult <= 1.0 && exit == stop * mult
    requires AtLeastKept(kept, side, entry, stop) && PaysAfterCosts(kept, side, mult)
    ensures !Beyond(stop, entry, side) && Beyond(entry, exit, side)
  {
    match side
    case Long => LongKept(entry, kept, mult, stop, exit);
    case Short => ShortKept(entry, kept, mult, stop, exit);
  }

  lemma LongKept(entry: real, r: real, mult: real, stop: real, exit: real)
    requires entry > 0.0 && r > 0.0 && mult <= 1.0 && exit == stop * mult
    requires stop >= entry * r && r * mult > 1.0
    ensures stop > entry && exit > entry
  {
    NotPositive(r, mult);
    assert r > 1.0 by { MulMono(mult, 1.0, r); }
    assert entry * r > entry by { MulStrict(1.0, r, entry); }
    LevelAfterCosts(entry, r, mult, entry * r, entry * r * mult, r * mult);
    MulMono(entry * r, stop, mult);
  }

  lemma ShortKept(entry: real, r: real, mult: real, stop: real, exit: real)
    requires entry > 0.0 && r > 0.0 && mult <= 1.0 && exit == stop * mult
    requires 0.0 < stop <= entry * r && r <= 1.0 && r * mult < 1.0
    ensures stop <= entry && exit < entry
  {
    assert entry * r <= entry by { MulMono(r, 1.0, entry); }
    if mult <= 0.0 {
      NotPositive(stop, mult);
    } else {
      LevelAfterCosts(entry, r, mult, entry * r, entry * r * mult, r * mult);
      NotAbove(stop, entry * r, mult, exit, entry * r * mult);
    }
  }

  lemma NotAbove(a: real, b: real, mult: real, x: real, y: real)
    requires a <= b && mult >= 0.0 && x == a * mult && y == b * mult
    ensures x <= y
  {
    MulMono(a, b, mult);
  }

  /** With these percentages and costs, every trailing exit on this side of every run is labelled truly. */
  ghost predicate AlwaysTrue(side: Side, a: real, b: real, fee: Bps, slippage: Bps) {
    forall env: Env, candles: seq<Candle>, k: nat ::
      && TrailsBy(env, a, b) && env.FeeBps() == fee && env.SlippageBps() == slippage
      && k < |Final(env, candles).log|
      && Final(env, candles).log[k].reason == ByTrailing && Final(env, candles).log[k].side == side
      ==> LabelMatches(Final(env, candles).log[k])
  }

  lemma TrailLabelsAreTrue(env: Env, candles: seq<Candle>, k: nat, a: real, b: real)
    requires TrailsBy(env, a, b) && a > 0.0 && b > 0.0 && k < |Final(env, candles).log|
    requires Final(env, candles).log[k].reason == ByTrailing
    requires KeepsTruth(Final(env, candles).log[k].side, a, b, env.ExitMult())
    ensures LabelMatches(Final(env, candles).log[k])
  {
    hide Final;
    hide KeepsTruth;
    hide LabelMatches;
    hide StopKept;
    hide PnlPct;
    hide TrailOutcome;
    FinalTrailsWell(env, candles, a, b);
    FinalLabelled(env, candles);
    var t := Final(env, candles).log[k];
    assert TrailedWell(env, a, b, t);
    var stop :| TrailedAt(env, t, stop) && StopKept(a, b, t.side, t.entryPrice, stop);
    KeptIsTrue(t, stop, a, b, env.ExitMult());
  }

  // ----- and its failing runs -----

  /** Always in at the open of bar 1, with the given stop and trail. */
  function TrailEnv(lib: Library, side: Side, sl: real, a: real, b: real, fee: Bps, slippage: Bps): Env {
    var exit := PctExit(sl, 100.0).(trailingStop := Some(TrailingStop(true, Some(a), Some(b))));
    Env(lib, Dsl(ALWAYS_LONG.(side := Some(side)), Some(exit), 1.0, None),
        ExecOpts(Some(fee), None, Some(slippage), Some(AtOpen)))
  }

  /** In at 100, on to the water mark, and back to the stop. */
  function TrailBars(side: Side, mark: Price, stop: Price): seq<Candle> {
    match side
    case Long => [Bar(1, 100.0), Bar(2, 100.0), Candle(3, stop, mark, stop, stop, 1.0)]
    case Short => [Bar(1, 100.0), Candle(2, 100.0, 100.0 + mark, 100.0, 100.0 + mark, 1.0),
                   Candle(3, stop, stop, mark, stop, 1.0)]
  }

  function EntryAt100(env: Env): Price {
    Effective(100.0, env.EntryMult())
  }

  lemma TrailEntry(env: Env, lib: Library, side: Side, sl: real, a: real, b: real, fee: Bps, slippage: Bps,
                   mark: Price, stop: Price)
    requires env == TrailEnv(lib, side, sl, a, b, fee, slippage)
    ensures
      var candles := TrailBars(side, mark, stop);
      && |candles| == 3 && Enter(env, candles, 1) == Some(Flat(env, candles, 1, side, (100.0, 2, 1)))
      && var p := Flat(env, candles, 1, side, (100.0, 2, 1));
         && p.side == side && p.entry == EntryAt100(env) && p.ladder == None && p.entryBar == 1
         && p.sl == Against(p.entry, sl, side)
         && p.trail == Trail(candles[1].close, candles[1].close, 0.0, false)
  {
    var candles := TrailBars(side, mark, stop);
    AlwaysFires(lib, 1, candles);
    assert SignalFires(lib, env.dsl.entry, 1, candles);
    hide SignalFires;
    hide Against;
    hide InFavour;
    hide Effective;
  }

  lemma TrailExit(env: Env, lib: Library, side: Side, sl: real, a: real, b: real, fee: Bps, slippage: Bps,
                  mark: Price, stop: Price, p: Position)
    requires env == TrailEnv(lib, side, sl, a, b, fee, slippage)
    requires p.side == side && p.sl == Against(p.entry, sl, side)
    requires p.trail == var close := TrailBars(side, mark, stop)[1].close; Trail(close, close, 0.0, false)
    requires stop == Against(mark, b, side) && Beyond(p.sl, stop, side)
    requires if side == Long then 100.0 <= mark && InFavour(p.entry, a, Long) <= mark
             else mark <= InFavour(p.entry, a, Short)
    ensures Decide(env, TrailBars(side, mark, stop), 2, p)
         == Some(ExitFill(3, stop, TrailOutcome(side, stop, p.entry), ByTrailing))
  {
    hide Against;
    hide InFavour;
    hide TrailOutcome;
  }

  /** The run leaves at that stop. */
  lemma TrailedRun(env: Env, lib: Library, side: Side, sl: real, a: real, b: real, fee: Bps, slippage: Bps,
                   mark: Price, stop: Price)
    requires env == TrailEnv(lib, side, sl, a, b, fee, slippage)
    requires stop == Against(mark, b, side) && Beyond(Against(EntryAt100(env), sl, side), stop, side)
    requires if side == Long then 100.0 <= mark && InFavour(EntryAt100(env), a, Long) <= mark
             else mark <= InFavour(EntryAt100(env), a, Short)
    ensures
      var log := Final(env, TrailBars(side, mark, stop)).log;
      && |log| == 1 && log[0].reason == ByTrailing && log[0].side == side
      && log[0].entryPrice == EntryAt100(env) && log[0].exitPrice == env.Net(stop)
      && log[0].outcome == TrailOutcome(side, stop, EntryAt100(env))
      && log[0].pnlPct == PnlPct(side, env.Net(stop), EntryAt100(env))
  {
    var candles := TrailBars(side, mark, stop);
    TrailEntry(env, lib, side, sl, a, b, fee, slippage, mark, stop);
    var p := Flat(env, candles, 1, side, (100.0, 2, 1));
    hide Flat;
    hide Enter;
    hide Against;
    hide InFavour;
    hide Effective;
    hide EntryAt100;
    TrailExit(env, lib, side, sl, a, b, fee, slippage, mark, stop, p);
    hide Decide;
    hide TrailEnv;
    OneTrade(env, candles, p, ExitFill(3, stop, TrailOutcome(side, stop, p.entry), ByTrailing));
    hide Final;
    hide PnlPct;
    hide TrailOutcome;
  }

  /** A stop the trail may leave behind on which the label and the profit disagree. */
  ghost predicate FalseStop(kept: real, side: Side, entry: real, mult: real, stop: real) {
    && stop > 0.0 && AtLeastKept(kept, side, entry, stop)
    && match side
       case Long => stop >= entry && stop * mult <= entry
       case Short => stop <= entry * kept && if stop <= entry then stop * mult >= entry else stop * mult <= entry
  }

  /** At the kept multiple, which does not pay after costs although it is past the entry before. */
  lemma FalseAtKept(kept: real, side: Side, entry: real, mult: real, level: real)
    requires kept > 0.0 && entry > 0.0 && mult <= 1.0 && level == entry * kept
    requires kept * mult <= 1.0 && if side == Long then kept >= 1.0 else kept > 1.0 || kept * mult == 1.0
    ensures FalseStop(kept, side, entry, mult, level)
  {
    NotPositive(entry, kept);
    LevelAfterCosts(entry, kept, mult, level, level * mult, kept * mult);
    if side == Short && kept <= 1.0 {
      MulMono(mult, 1.0, kept);
      assert kept == 1.0;
    } else {
      MulMono(1.0, kept, entry);
      if kept > 1.0 { MulStrict(1.0, kept, entry); }
    }
  }

  /** At the entry itself, for a long trail that may fall below it. */
  lemma FalseAtEntry(kept: real, entry: real, mult: real)
    requires 0.0 < kept < 1.0 && entry > 0.0 && mult <= 1.0
    ensures FalseStop(kept, Long, entry, mult, entry)
  {
    assert entry * kept <= entry by { MulMono(kept, 1.0, entry); }
    assert entry * mult <= entry by { MulMono(mult, 1.0, entry); }
  }

  /** Where a short exit breaks even after costs, if the trail may leave the stop there. */
  lemma FalseAtBreakEven(kept: real, entry: real, mult: real, stop: real)
    requires kept > 0.0 && entry > 0.0 && 0.0 < mult <= 1.0 && kept * mult > 1.0 && stop * mult == entry
    ensures FalseStop(kept, Short, entry, mult, stop)
  {
    var level := entry * kept;
    LevelAfterCosts(entry, kept, mult, level, level * mult, kept * mult);
    CancelStrict(stop, level, mult);
    if stop <= 0.0 { MulMono(stop, 0.0, mult); }
  }

  lemma FindFalseStop(kept: real, side: Side, entry: real, mult: real) returns (stop: real)
    requires kept > 0.0 && entry > 0.0 && mult <= 1.0 && !PaysAfterCosts(kept, side, mult)
    ensures FalseStop(kept, side, entry, mult, stop)
  {
    MulMono(mult, 1.0, kept);
    hide FalseStop;
    if side == Long && kept < 1.0 {
      stop := entry;
      FalseAtEntry(kept, entry, mult);
    } else if kept * mult <= 1.0 {
      stop := entry * kept;
      FalseAtKept(kept, side, entry, mult, stop);
    } else {
      NotPositive(kept, mult);
      stop := Divided(entry, mult);
      FalseAtBreakEven(kept, entry, mult, stop);
    }
  }

  /** The water mark that leaves the stop there has reached the activation. */
  lemma MarkFor(side: Side, a: real, b: real, entry: real, stop: real) returns (mark: Price)
    requires a > 0.0 && b > 0.0 && CanTrail(a, b, side) && entry >= 100.0
    requires stop > 0.0 && AtLeastKept(Keeps(a, b, side), side, entry, stop)
    ensures stop == Against(mark, b, side)
    ensures if side == Long then 100.0 <= mark && InFavour(entry, a, Long) <= mark
            else mark <= InFavour(entry, a, Short)
  {
    var f, g := FavourFactor(a, side), AgainstFactor(b, side);
    FactorOfPercent(entry, a, side);
    mark := Divided(stop, g);
    FactorOfPercent(mark, b, side);
    MarkReaches(side, entry, f, g, mark, stop, entry * f);
    if side == Long {
      MulStrict(1.0, f, entry);
    }
  }

  lemma Divided(x: real, g: real) returns (q: Price)
    requires x > 0.0 && g > 0.0
    ensures q * g == x
  {
    var y := x / g;
    assert y * g == x;
    NotPositive(g, y);
    q := y;
  }

  lemma MarkReaches(side: Side, entry: real, f: real, g: real, mark: real, stop: real, level: real)
    requires g > 0.0 && mark * g == stop && level == entry * f && AtLeastKept(f * g, side, entry, stop)
    ensures if side == Long then level <= mark else mark <= level
  {
    assert level * g == entry * (f * g);
    if side == Long { QuotientAtLeast(mark, g, level); } else { QuotientAtMost(mark, g, level); }
  }

  /** A stop-loss out of the way of that stop. */
  lemma FarStop(kept: real, side: Side, entry: real, mult: real, stop: real) returns (sl: real)
    requires entry > 0.0 && FalseStop(kept, side, entry, mult, stop)
    ensures Beyond(Against(entry, sl, side), stop, side)
  {
    sl := if side == Long then 50.0 else 100.0 * (1.0 + kept);
    FactorOfPercent(entry, sl, side);
    if side == Short {
      assert AgainstFactor(sl, side) == 2.0 + kept;
      assert entry * (2.0 + kept) == entry * 2.0 + entry * kept;
    }
  }

  lemma FalseLabel(t: Trade, kept: real, mult: real, stop: real)
    requires t.entryPrice > 0.0 && FalseStop(kept, t.side, t.entryPrice, mult, stop) && t.exitPrice == stop * mult
    requires t.outcome == TrailOutcome(t.side, stop, t.entryPrice)
    requires t.pnlPct == PnlPct(t.side, t.exitPrice, t.entryPrice)
    ensures !LabelMatches(t)
  {
    SignOfPnl(t.side, t.exitPrice, t.entryPrice);
    hide PnlPct;
  }

  lemma EntryAtLeast100(env: Env)
    ensures EntryAt100(env) >= 100.0 && env.ExitMult() <= 1.0
  {
  }

  /** If the condition fails, some run logs a trailing exit whose label is false. */
  lemma FalselyLabelled(lib: Library, side: Side, a: real, b: real, fee: Bps, slippage: Bps)
    returns (env: Env, candles: seq<Candle>)
    requires a > 0.0 && b > 0.0 && !KeepsTruth(side, a, b, 1.0 - (fee + slippage) / 10000.0)
    ensures TrailsBy(env, a, b) && env.FeeBps() == fee && env.SlippageBps() == slippage
    ensures
      var log := Final(env, candles).log;
      |log| == 1 && log[0].reason == ByTrailing && log[0].side == side && !LabelMatches(log[0])
  {
    hide Final;
    hide LabelMatches;
    hide Against;
    hide InFavour;
    hide PnlPct;
    hide TrailOutcome;
    hide FalseStop;
    hide EntryAt100;
    hide AtLeastKept;
    env := TrailEnv(lib, side, 0.0, a, b, fee, slippage);
    var mult, entry := env.ExitMult(), EntryAt100(env);
    EntryAtLeast100(env);
    KeepsPositive(a, b, side);
    var stop := FindFalseStop(Keeps(a, b, side), side, entry, mult);
    FalseIsKept(Keeps(a, b, side), side, entry, mult, stop);
    var mark := MarkFor(side, a, b, entry, stop);
    var sl := FarStop(Keeps(a, b, side), side, entry, mult, stop);
    env := TrailEnv(lib, side, sl, a, b, fee, slippage);
    SameCosts(lib, side, sl, a, b, fee, slippage);
    candles := TrailBars(side, mark, stop);
    TrailedRun(env, lib, side, sl, a, b, fee, slippage, mark, stop);
    FalseLabel(Final(env, candles).log[0], Keeps(a, b, side), mult, stop);
  }

  lemma FalseIsKept(kept: real, side: Side, entry: real, mult: real, stop: real)
    requires FalseStop(kept, side, entry, mult, stop)
    ensures stop > 0.0 && AtLeastKept(kept, side, entry, stop)
  {
  }

  lemma SameCosts(lib: Library, side: Side, sl: real, a: real, b: real, fee: Bps, slippage: Bps)
    ensures EntryAt100(TrailEnv(lib, side, sl, a, b, fee, slippage))
         == EntryAt100(TrailEnv(lib, side, 0.0, a, b, fee, slippage))
    ensures TrailEnv(lib, side, sl, a, b, fee, slippage).ExitMult() == 1.0 - (fee + slippage) / 10000.0
  {
  }

  /**
   * Every trailing exit of every run is labelled with the sign of its profit exactly if, for longs, what the
   * trail keeps of the entry is still a gain after costs; for shorts, if it is one both before and after.
   */
  lemma TrailLabelsMatchExactly(side: Side, a: real, b: real, fee: Bps, slippage: Bps)
    requires a > 0.0 && b > 0.0
    ensures AlwaysTrue(side, a, b, fee, slippage)
       <==> KeepsTruth(side, a, b, 1.0 - (fee + slippage) / 10000.0)
  {
    hide Final;
    hide LabelMatches;
    hide KeepsTruth;
    if KeepsTruth(side, a, b, 1.0 - (fee + slippage) / 10000.0) {
      forall env: Env, candles: seq<Candle>, k: nat |
        && TrailsBy(env, a, b) && env.FeeBps() == fee && env.SlippageBps() == slippage
        && k < |Final(env, candles).log|
        && Final(env, candles).log[k].reason == ByTrailing && Final(env, candles).log[k].side == side
        ensures LabelMatches(Final(env, candles).log[k])
      {
        TrailLabelsAreTrue(env, candles, k, a, b);
      }
    } else {
      var env, candles := FalselyLabelled(NOTHING, side, a, b, fee, slippage);
    }
  }

  const NOTHING: Library := (comp, candles) => Output([], [], [])

  /**
   * Such a run, with a trail of 1% and 0.9% under costs of 0.1%: in at 100.1 after costs, on to 101.101, out at
   * the stop of 100.191091, a WIN that lost money.
   */
  lemma LosingWinExample(lib: Library)
    ensures
      var env := TrailEnv(lib, Long, 50.0, 1.0, 0.9, 10.0, 0.0);
      var log := Final(env, TrailBars(Long, 101.101, 100.191091)).log;
      |log| == 1 && log[0].reason == ByTrailing && log[0].outcome == Win && log[0].pnlPct < 0.0
  {
    var env := TrailEnv(lib, Long, 50.0, 1.0, 0.9, 10.0, 0.0);
    assert EntryAt100(env) == 100.1 && env.ExitMult() == 0.999;
    TrailedRun(env, lib, Long, 50.0, 1.0, 0.9, 10.0, 0.0, 101.101, 100.191091);
    SignOfPnl(Long, env.Net(100.191091), 100.1);
    hide Final;
    hide PnlPct;
  }
}
