/** What the outcome a trade is labelled with says about its profit (`recordTrade` and its callers). */
module TradeLabels {
  import opened Wrappers
  import opened Market
  import opened Reals
  import opened Indicators
  import opened DcaPlanning
  import opened Strategy
  import opened Backtest
  import opened BacktestInvariants
  import opened Scenarios

  ghost predicate Computed(t: Trade) {
    t.reason == ByIndicator || t.reason == ByTime || t.reason == ByEndOfData
  }

  ghost predicate LabelMatches(t: Trade) {
    && (t.outcome == Win <==> t.pnlPct > 0.0)
    && (t.outcome == Loss <==> t.pnlPct < 0.0)
  }

  // ----- the sign of a profit -----

  lemma QuotientSign(a: real, b: real)
    requires b > 0.0
    ensures (a / b > 0.0 <==> a > 0.0) && (a / b < 0.0 <==> a < 0.0)
  {
    assert a / b * b == a;
    if a / b > 0.0 { MulPos(a / b, b); }
    if a / b < 0.0 { MulPos(-(a / b), b); }
  }

  /** A profit is positive exactly if the entry is a worse price than the exit, negative exactly if better. */
  lemma SignOfPnl(side: Side, exit: real, entry: real)
    requires entry > 0.0
    ensures PnlPct(side, exit, entry) > 0.0 <==> Beyond(entry, exit, side)
    ensures PnlPct(side, exit, entry) < 0.0 <==> Beyond(exit, entry, side)
  {
    var gain := if side == Long then exit - entry else entry - exit;
    QuotientSign(gain, entry);
  }

  // ----- what every logged trade satisfies -----

  /** The trade left at this trailing stop. */
  ghost predicate TrailedAt(env: Env, t: Trade, stop: real) {
    t.exitPrice == env.Net(stop) && t.outcome == TrailOutcome(t.side, stop, t.entryPrice)
  }

  ghost predicate Labelled(env: Env, t: Trade) {
    && t.entryPrice > 0.0
    && t.pnlPct == PnlPct(t.side, t.exitPrice, t.entryPrice)
    && (t.reason == BySl ==> t.outcome == Loss && t.exitPrice == env.Net(t.slPrice))
    && (t.reason == ByTp ==> t.outcome == Win && t.exitPrice == env.Net(t.tpPrice))
    && (t.reason == ByTrailing ==> exists stop :: TrailedAt(env, t, stop))
    && (Computed(t) ==> t.outcome == OutcomeOf(t.side, t.exitPrice, t.entryPrice))
  }

  /** The percentage the stop keeps from the entry, where it is one. */
  function StopPct(env: Env): Option<real> {
    if StopDef(env.dsl).kind == FixedPct || (StopDef(env.dsl).kind == FixedPrice && !env.IsDca())
    then Some(StopDef(env.dsl).value) else None
  }

  /** The percentage of the target: the ladder's own, or the level's. */
  function TargetPct(env: Env): Option<real> {
    if env.IsDca() then Some(env.dsl.dca.value.takeProfitPct)
    else if TargetDef(env.dsl).kind != AtrMultiple then Some(TargetDef(env.dsl).value)
    else None
  }

  ghost predicate AtPercents(env: Env, side: Side, entry: real, sl: real, tp: real) {
    && (StopPct(env).Some? ==> sl == Against(entry, StopPct(env).value, side))
    && (TargetPct(env).Some? ==> tp == InFavour(entry, TargetPct(env).value, side))
  }

  /** The levels of an open position follow its entry, on the ladder as off it. */
  ghost predicate LevelsFollow(env: Env, p: Position) {
    && PositionOk(env, p)
    && AtPercents(env, p.side, p.entry, p.sl, p.tp)
    && (p.ladder.Some? && StopPct(env).Some? ==> p.ladder.value.slPct == StopPct(env).value)
  }

  lemma OpenFollows(env: Env, candles: seq<Candle>, i: nat, side: Side, fill: (Price, int, nat))
    requires i < |candles|
    ensures LevelsFollow(env, Open(env, candles, i, side, fill))
  {
    OpenIsOk(env, candles, i, side, fill);
    hide PositionOk;
    hide Against;
    hide InFavour;
  }

  lemma LadderFollows(env: Env, p: Position)
    requires PositionOk(env, p) && p.ladder.Some?
    requires StopPct(env).Some? ==> p.ladder.value.slPct == StopPct(env).value
    ensures LevelsFollow(env, p)
  {
    hide Against;
    hide InFavour;
  }

  lemma FillFollows(env: Env, c: Candle, p: Position)
    requires LevelsFollow(env, p)
    ensures LevelsFollow(env, FillLadder(env, c, p))
  {
    FillLadderKeeps(env, c, p);
    var q := FillLadder(env, c, p);
    if p.ladder.Some? {
      SlPctKept(env, c, p);
      hide FillLadder;
      hide PositionOk;
      LadderFollows(env, q);
    }
  }

  lemma SlPctKept(env: Env, c: Candle, p: Position)
    requires p.ladder.Some?
    ensures FillLadder(env, c, p).ladder.Some? && FillLadder(env, c, p).ladder.value.slPct == p.ladder.value.slPct
  {
  }

  /** What the exit's reason says about its price and outcome. */
  ghost predicate Explained(env: Env, p: Position, x: ExitFill) {
    match x.reason
    case BySl => x.outcome == Loss && x.price == p.sl
    case ByTp => x.outcome == Win && x.price == p.tp
    case ByTrailing => x.outcome == TrailOutcome(p.side, x.price, p.entry)
    case _ => x.outcome == OutcomeAt(env, p, x.price)
  }

  lemma ExitExplained(env: Env, candles: seq<Candle>, i: nat, p: Position)
    requires i < |candles| && Decide(env, candles, i, p).Some?
    ensures Explained(env, p, Decide(env, candles, i, p).value)
  {
    hide OutcomeAt;
    hide TrailOutcome;
    hide SignalFill;
    hide IndicatorFires;
    hide StopHit;
    hide TargetHit;
    hide TrailFires;
    hide TrailNow;
    hide TimeIsUp;
  }

  lemma TradeLabelled(env: Env, p: Position, x: ExitFill, bars: int)
    requires LevelsFollow(env, p) && Explained(env, p, x)
    ensures var t := TradeOf(env, p, x, bars);
      Labelled(env, t) && AtPercents(env, t.side, t.entryPrice, t.slPrice, t.tpPrice)
  {
    FollowedLevels(env, p);
    hide LevelsFollow;
    hide AtPercents;
    hide PnlPct;
    hide OutcomeOf;
    hide TrailOutcome;
    hide StopPct;
    hide TargetPct;
    var t := TradeOf(env, p, x, bars);
    if x.reason == ByTrailing {
      assert TrailedAt(env, t, x.price);
    }
  }

  lemma FollowedLevels(env: Env, p: Position)
    requires LevelsFollow(env, p)
    ensures p.entry > 0.0 && AtPercents(env, p.side, p.entry, p.sl, p.tp)
  {
  }

  lemma EndExplained(env: Env, c: Candle, p: Position)
    ensures Explained(env, p, EndFill(env, c, p))
  {
  }

  ghost predicate AllLabelled(env: Env, log: seq<Trade>) {
    forall k :: 0 <= k < |log| ==>
      Labelled(env, log[k]) && AtPercents(env, log[k].side, log[k].entryPrice, log[k].slPrice, log[k].tpPrice)
  }

  lemma {:induction false} RunLabelled(env: Env, candles: seq<Candle>, n: nat)
    requires n <= |candles|
    ensures var st := RunTo(env, candles, n);
      AllLabelled(env, st.log) && (st.position.Some? ==> LevelsFollow(env, st.position.value))
  {
    hide Labelled;
    hide AtPercents;
    hide LevelsFollow;
    hide Decide;
    hide FillLadder;
    hide TradeOf;
    hide Open;
    hide Explained;
    if n > 1 {
      RunLabelled(env, candles, n - 1);
      var st, i := RunTo(env, candles, n - 1), n - 1;
      if st.position.Some? {
        var p := FillLadder(env, candles[i], st.position.value);
        FillFollows(env, candles[i], st.position.value);
        if Decide(env, candles, i, p).Some? {
          ExitExplained(env, candles, i, p);
          TradeLabelled(env, p, Decide(env, candles, i, p).value, i - p.entryBar);
        } else {
          TrailIsNoLevel(env, p, TrailNow(env, p, candles[i]));
        }
      } else if Enter(env, candles, i).Some? {
        var side, fill := BacktestSide(env.lib, env.dsl.entry, i, candles), EntryFill(env, candles, i);
        OpenFollows(env, candles, i, side.value, fill.value);
      }
    }
  }

  lemma TrailIsNoLevel(env: Env, p: Position, trail: Trail)
    requires LevelsFollow(env, p)
    ensures LevelsFollow(env, p.(trail := trail))
  {
    hide AtPercents;
  }

  lemma FinalLabelled(env: Env, candles: seq<Candle>)
    ensures AllLabelled(env, Final(env, candles).log)
  {
    hide Labelled;
    hide AtPercents;
    hide LevelsFollow;
    hide RunTo;
    hide TradeOf;
    hide EndFill;
    hide Explained;
    if |candles| >= 2 {
      RunLabelled(env, candles, |candles|);
      var st := RunTo(env, candles, |candles|);
      if st.position.Some? {
        var p := st.position.value;
        EndExplained(env, candles[|candles| - 1], p);
        TradeLabelled(env, p, EndFill(env, candles[|candles| - 1], p), |candles| - 1 - p.entryBar);
      }
    }
  }

  // ----- when a label tells the truth -----

  /** Where the outcome is computed rather than implied by the exit kind, it is the sign of the profit. */
  lemma ComputedOutcomesMatchPnl(env: Env, candles: seq<Candle>, k: nat)
    requires k < |Final(env, candles).log|
    ensures Computed(Final(env, candles).log[k]) ==> LabelMatches(Final(env, candles).log[k])
  {
    hide Final;
    hide PnlPct;
    FinalLabelled(env, candles);
    var t := Final(env, candles).log[k];
    SignOfPnl(t.side, t.exitPrice, t.entryPrice);
  }

  /**
   * The fixed labels: a stop's LOSS is a loss exactly if the stop after costs is worse than the entry, a
   * target's WIN a profit exactly if the target after costs is better than the entry.
   */
  lemma FixedLabelsMatchExactly(env: Env, candles: seq<Candle>, k: nat)
    requires k < |Final(env, candles).log|
    ensures
      var t := Final(env, candles).log[k];
      && (t.reason == BySl ==> (LabelMatches(t) <==> Beyond(env.Net(t.slPrice), t.entryPrice, t.side)))
      && (t.reason == ByTp ==> (LabelMatches(t) <==> Beyond(t.entryPrice, env.Net(t.tpPrice), t.side)))
  {
    hide Final;
    hide PnlPct;
    FinalLabelled(env, candles);
    var t := Final(env, candles).log[k];
    SignOfPnl(t.side, t.exitPrice, t.entryPrice);
  }

  /** What a percentage against the position multiplies a price by. */
  function AgainstFactor(pct: real, side: Side): real {
    if side == Long then 1.0 - pct / 100.0 else 1.0 + pct / 100.0
  }

  function FavourFactor(pct: real, side: Side): real {
    if side == Long then 1.0 + pct / 100.0 else 1.0 - pct / 100.0
  }

  /** A level at this multiple of the entry is a loss after costs. */
  predicate Loses(factor: real, mult: real, side: Side) {
    Beyond(factor * mult, 1.0, side)
  }

  predicate Gains(factor: real, mult: real, side: Side) {
    Beyond(1.0, factor * mult, side)
  }

  /** A stop at that percentage still loses after costs: for longs `(1 - pct/100) * exitMult < 1`, for shorts `> 1`. */
  predicate StopLoses(env: Env, side: Side)
    requires StopPct(env).Some?
  {
    Loses(AgainstFactor(StopPct(env).value, side), env.ExitMult(), side)
  }

  /** A target at that percentage gains after costs: for longs `(1 + pct/100) * exitMult > 1`, for shorts `< 1`. */
  predicate TargetGains(env: Env, side: Side)
    requires TargetPct(env).Some?
  {
    Gains(FavourFactor(TargetPct(env).value, side), env.ExitMult(), side)
  }

  /**
   * For levels in percent, with or without a ladder, the condition is one on the strategy and its costs: a
   * caller can tell before the run whether its stops and targets will be labelled truly.
   */
  lemma PercentLabelsMatchExactly(env: Env, candles: seq<Candle>, k: nat)
    requires k < |Final(env, candles).log|
    ensures
      var t := Final(env, candles).log[k];
      && (t.reason == BySl && StopPct(env).Some? ==> (LabelMatches(t) <==> StopLoses(env, t.side)))
      && (t.reason == ByTp && TargetPct(env).Some? ==> (LabelMatches(t) <==> TargetGains(env, t.side)))
  {
    hide Final;
    hide LabelMatches;
    hide StopPct;
    hide TargetPct;
    hide Labelled;
    hide AtPercents;
    hide StopLoses;
    hide TargetGains;
    FinalLabelled(env, candles);
    var t := Final(env, candles).log[k];
    if t.reason == BySl && StopPct(env).Some? { PercentStop(env, t); }
    if t.reason == ByTp && TargetPct(env).Some? { PercentTarget(env, t); }
  }

  lemma PercentStop(env: Env, t: Trade)
    requires Labelled(env, t) && AtPercents(env, t.side, t.entryPrice, t.slPrice, t.tpPrice)
    requires t.reason == BySl && StopPct(env).Some?
    ensures LabelMatches(t) <==> StopLoses(env, t.side)
  {
    hide LabelMatches;
    hide PnlPct;
    hide OutcomeOf;
    hide TrailedAt;
    hide StopPct;
    hide TargetPct;
    hide Loses;
    LossLabel(t);
    var factor := AgainstFactor(StopPct(env).value, t.side);
    LevelBeyond(t.entryPrice, factor, env.ExitMult(), t.slPrice, t.exitPrice, t.side);
  }

  lemma PercentTarget(env: Env, t: Trade)
    requires Labelled(env, t) && AtPercents(env, t.side, t.entryPrice, t.slPrice, t.tpPrice)
    requires t.reason == ByTp && TargetPct(env).Some?
    ensures LabelMatches(t) <==> TargetGains(env, t.side)
  {
    hide LabelMatches;
    hide PnlPct;
    hide OutcomeOf;
    hide TrailedAt;
    hide StopPct;
    hide TargetPct;
    hide Gains;
    WinLabel(t);
    var factor := FavourFactor(TargetPct(env).value, t.side);
    LevelBeyond(t.entryPrice, factor, env.ExitMult(), t.tpPrice, t.exitPrice, t.side);
  }

  lemma LevelBeyond(entry: real, factor: real, mult: real, level: real, exit: real, side: Side)
    requires entry > 0.0 && level == entry * factor && exit == level * mult
    ensures Beyond(exit, entry, side) <==> Loses(factor, mult, side)
    ensures Beyond(entry, exit, side) <==> Gains(factor, mult, side)
  {
    LevelAfterCosts(entry, factor, mult, level, exit, factor * mult);
  }

  /** Against the sign of its profit, a LOSS is true exactly if the exit is the worse price, a WIN if the better. */
  lemma LossLabel(t: Trade)
    requires t.entryPrice > 0.0 && t.pnlPct == PnlPct(t.side, t.exitPrice, t.entryPrice) && t.outcome == Loss
    ensures LabelMatches(t) <==> Beyond(t.exitPrice, t.entryPrice, t.side)
  {
    SignOfPnl(t.side, t.exitPrice, t.entryPrice);
    hide PnlPct;
  }

  lemma WinLabel(t: Trade)
    requires t.entryPrice > 0.0 && t.pnlPct == PnlPct(t.side, t.exitPrice, t.entryPrice) && t.outcome == Win
    ensures LabelMatches(t) <==> Beyond(t.entryPrice, t.exitPrice, t.side)
  {
    SignOfPnl(t.side, t.exitPrice, t.entryPrice);
    hide PnlPct;
  }

  lemma FactorOfPercent(price: real, pct: real, side: Side)
    ensures Against(price, pct, side) == price * AgainstFactor(pct, side)
    ensures InFavour(price, pct, side) == price * FavourFactor(pct, side)
  {
  }

  /** A level at a multiple of the entry compares after costs with the entry as the multiple does with one. */
  lemma LevelAfterCosts(entry: real, factor: real, mult: real, level: real, exit: real, x: real)
    requires entry > 0.0 && level == entry * factor && exit == level * mult && x == factor * mult
    ensures exit > entry <==> x > 1.0
    ensures exit < entry <==> x < 1.0
  {
    Reassociate(entry, factor, mult);
    assert exit == x * entry;
    if x > 1.0 { MulStrict(1.0, x, entry); }
    if x < 1.0 { MulStrict(x, 1.0, entry); }
  }

  lemma Reassociate(a: real, b: real, c: real)
    ensures a * b * c == a * (b * c)
  {
  }

  // ----- examples -----

  /** Costs of 0.1% against a target of 0.05%. */
  function ThinTarget(lib: Library): Env {
    Env(lib, Dsl(ALWAYS_LONG, Some(PctExit(50.0, 0.05)), 1.0, None), ExecOpts(Some(10.0), None, None, None))
  }

  /** The run over two candles at 100 and one at 101 logs one trade, a target hit: a WIN that lost money. */
  lemma ThinTargetExample(lib: Library)
    ensures
      var log := Final(ThinTarget(lib), [Bar(1, 100.0), Bar(2, 100.0), Bar(3, 101.0)]).log;
      |log| == 1 && log[0].reason == ByTp && log[0].outcome == Win && log[0].pnlPct < 0.0
  {
    var env, candles := ThinTarget(lib), [Bar(1, 100.0), Bar(2, 100.0), Bar(3, 101.0)];
    var p := Flat(env, candles, 1, Long, (100.0, 2, 1));
    ThinEntry(lib, candles);
    ThinExit(lib, candles, p);
    var fill := ExitFill(3, p.tp, Win, ByTp);
    OneTrade(env, candles, p, fill);
    ThinLoss(env, p, fill);
  }

  lemma ThinEntry(lib: Library, candles: seq<Candle>)
    requires |candles| == 3 && candles[1] == Bar(2, 100.0)
    ensures
      var env := ThinTarget(lib);
      Enter(env, candles, 1) == Some(Flat(env, candles, 1, Long, (100.0, 2, 1)))
  {
    hide Flat;
    hide SignalFires;
    AlwaysFires(lib, 1, candles);
  }

  lemma ThinExit(lib: Library, candles: seq<Candle>, p: Position)
    requires |candles| == 3 && candles[1] == Bar(2, 100.0) && candles[2] == Bar(3, 101.0)
    requires p == Flat(ThinTarget(lib), candles, 1, Long, (100.0, 2, 1))
    ensures p.side == Long && p.entry == 100.1 && p.ladder == None && p.tp == 100.15005
    ensures Decide(ThinTarget(lib), candles, 2, p) == Some(ExitFill(3, p.tp, Win, ByTp))
  {
  }

  lemma ThinLoss(env: Env, p: Position, fill: ExitFill)
    requires env.ExitMult() == 0.999 && p.side == Long && p.entry == 100.1 && fill.price == 100.15005
    ensures TradeOf(env, p, fill, 1).pnlPct < 0.0
  {
    SignOfPnl(Long, env.Net(fill.price), p.entry);
  }

  /** A run over three candles that enters on the second and leaves on the third logs that trade alone. */
  lemma OneTrade(env: Env, candles: seq<Candle>, p: Position, fill: ExitFill)
    requires |candles| == 3 && Enter(env, candles, 1) == Some(p) && p.ladder == None && p.entryBar == 1
    requires Decide(env, candles, 2, p) == Some(fill)
    ensures Final(env, candles).log == [TradeOf(env, p, fill, 1)]
  {
    hide Enter;
    hide Decide;
    hide TradeOf;
    assert RunTo(env, candles, 1) == START;
    assert RunTo(env, candles, 2) == START.(position := Some(p));
    assert FillLadder(env, candles[2], p) == p;
    assert RunTo(env, candles, 3) == Step(env, candles, 2, RunTo(env, candles, 2));
  }

  /**
   * Both multipliers are applied to both sides alike, so a round trip at one raw price loses on the long
   * side and gains on the short side as soon as there is any cost.
   */
  lemma CostsHelpShorts(env: Env, price: Price)
    ensures
      var entry, exit := price * env.EntryMult(), price * env.ExitMult();
      && (PnlPct(Long, exit, entry) < 0.0 <==> env.FeeBps() + env.SlippageBps() > 0.0)
      && (PnlPct(Short, exit, entry) > 0.0 <==> env.FeeBps() + env.SlippageBps() > 0.0)
  {
    RoundTrip(price, env.EntryMult(), env.ExitMult(), price * env.EntryMult(), price * env.ExitMult());
  }

  lemma RoundTrip(price: Price, m: Price, n: real, entry: real, exit: real)
    requires n <= m && entry == price * m && exit == price * n
    ensures PnlPct(Long, exit, entry) < 0.0 <==> n < m
    ensures PnlPct(Short, exit, entry) > 0.0 <==> n < m
  {
    MulPos(price, m);
    SignOfPnl(Long, exit, entry);
    SignOfPnl(Short, exit, entry);
    if n < m {
      MulStrict(n, m, price);
    }
  }
}
