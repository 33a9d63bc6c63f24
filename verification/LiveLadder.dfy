/** The live DCA ladder (`runtime/dcaEngine.ts`): a state machine fed by fills, against the backtest's ladder. */
module LiveLadder {
  import opened Wrappers
  import opened Market
  import opened DcaPlanning
  import opened DcaLadder

  datatype Phase = AwaitingBase | LadderActive | Completed | Cancelled

  datatype Live = Live(
    phase: Phase,
    config: DcaConfig,
    stopLossPct: real,
    side: Side,
    baseEntryPrice: real,
    schedule: Option<seq<SafetyOrder>>,
    fills: seq<Fill>,
    avgEntryPrice: real,
    totalQty: real,
    totalCostUsd: real,
    tpPrice: real,
    slPrice: real,
    safetyOrdersFilled: int,
    nextSoIndex: int
  )

  /** A state, and whether the transition moved the exit levels. */
  datatype Transition = Transition(state: Live, exitLevelsChanged: bool)

  // ----- transitions -----

  function InitDcaState(config: DcaConfig, side: Side, stopLossPct: real): Result<Live, ConfigError> {
    var problem := FirstProblem(config);
    if problem.Some? then Failure(problem.value)
    else Success(Live(AwaitingBase, config, stopLossPct, side, 0.0, None, [], 0.0, 0.0, 0.0, 0.0, 0.0, 0, 0))
  }

  /** The orders `GenerateSafetyOrderSchedule` returns, or its refusal. */
  function OrdersFor(config: DcaConfig, entry: real, side: Side): (r: Result<seq<SafetyOrder>, ScheduleError>)
    ensures r.Success? ==> Usable(config, entry, side) && r.value == Levels(config, entry, side, config.maxSafetyOrders)
    ensures r.Failure? <==> !(ValidConfig(config) && entry > 0.0)
  {
    ChecksDecideValidity(config);
    var problem := FirstProblem(config);
    if problem.Some? then Failure(InvalidConfig(problem.value))
    else if entry <= 0.0 then Failure(BadEntryPrice)
    else
      TriggersPositive(config, entry, side);
      Success(Levels(config, entry, side, config.maxSafetyOrders))
  }

  /** The base fill activates the ladder; in any other phase nothing happens. */
  function ApplyBaseFill(s: Live, price: real, qty: real): Result<Transition, ScheduleError> {
    if s.phase != AwaitingBase then Success(Transition(s, false))
    else
      var orders := OrdersFor(s.config, price, s.side);
      if orders.Failure? then Failure(orders.error)
      else
        Success(Transition(
          s.(phase := LadderActive, baseEntryPrice := price, schedule := Some(orders.value),
             fills := [Fill(price, qty, price * qty)], avgEntryPrice := price, totalQty := qty,
             totalCostUsd := price * qty, tpPrice := InFavour(price, s.config.takeProfitPct, s.side),
             slPrice := Against(price, s.stopLossPct, s.side), safetyOrdersFilled := 0,
             nextSoIndex := if |orders.value| > 0 then 0 else -1),
          true))
  }

  /** The fill of a safety order is taken if the ladder is active and the order is the next one. */
  function ApplySafetyFill(s: Live, soIndex: int, price: real, qty: real): Transition {
    if s.phase != LadderActive || s.schedule == None || soIndex != s.nextSoIndex then Transition(s, false)
    else
      var fills := s.fills + [Fill(price, qty, price * qty)];
      var avg := AvgEntry(fills);
      Transition(
        s.(fills := fills, avgEntryPrice := avg, totalQty := s.totalQty + qty,
           totalCostUsd := s.totalCostUsd + price * qty,
           tpPrice := InFavour(avg, s.config.takeProfitPct, s.side),
           slPrice := Against(avg, s.stopLossPct, s.side), safetyOrdersFilled := s.safetyOrdersFilled + 1,
           nextSoIndex := if soIndex + 1 < |s.schedule.value| then soIndex + 1 else -1),
        true)
  }

  function CompleteLadder(s: Live): Live {
    if s.phase == LadderActive then s.(phase := Completed, nextSoIndex := -1) else s
  }

  function CancelLadder(s: Live): Live {
    if s.phase == Completed || s.phase == Cancelled then s else s.(phase := Cancelled, nextSoIndex := -1)
  }

  // ----- whole lives of a ladder -----

  datatype Event =
    | BaseFill(price: real, qty: real)
    | SafetyFill(soIndex: int, price: real, qty: real)
    | Complete
    | Cancel

  /** A base fill that is refused raises, and leaves the state as it was. */
  function Handle(s: Live, e: Event): Live {
    match e
    case BaseFill(price, qty) =>
      var r := ApplyBaseFill(s, price, qty);
      if r.Success? then r.value.state else s
    case SafetyFill(soIndex, price, qty) => ApplySafetyFill(s, soIndex, price, qty).state
    case Complete => CompleteLadder(s)
    case Cancel => CancelLadder(s)
  }

  function Life(s: Live, events: seq<Event>): Live {
    if events == [] then s else Handle(Life(s, events[..|events| - 1]), events[|events| - 1])
  }

  /** Fills are of positive quantities. */
  predicate Proper(e: Event) {
    match e
    case BaseFill(_, qty) => qty > 0.0
    case SafetyFill(_, _, qty) => qty > 0.0
    case Complete => true
    case Cancel => true
  }

  /** Totals, average and levels are those of the fills, of which all but the first are safety orders. */
  ghost predicate Priced(s: Live) {
    && |s.fills| == s.safetyOrdersFilled + 1
    && s.totalQty == QtySum(s.fills) > 0.0
    && s.totalCostUsd == CostSum(s.fills)
    && s.avgEntryPrice * s.totalQty == s.totalCostUsd
    && s.tpPrice == InFavour(s.avgEntryPrice, s.config.takeProfitPct, s.side)
    && s.slPrice == Against(s.avgEntryPrice, s.stopLossPct, s.side)
  }

  /** The ladder holds the whole schedule of its base price, filled in order without repetition. */
  ghost predicate Sequential(s: Live) {
    && Usable(s.config, s.baseEntryPrice, s.side)
    && s.schedule == Some(Levels(s.config, s.baseEntryPrice, s.side, s.config.maxSafetyOrders))
    && 0 <= s.safetyOrdersFilled <= s.config.maxSafetyOrders
    && s.nextSoIndex == if s.safetyOrdersFilled < s.config.maxSafetyOrders then s.safetyOrdersFilled else -1
  }

  ghost predicate LiveOk(s: Live) {
    match s.phase
    case AwaitingBase =>
      && s.fills == [] && s.schedule == None && s.safetyOrdersFilled == 0 && s.nextSoIndex == 0
      && s.baseEntryPrice == 0.0 && s.avgEntryPrice == 0.0 && s.totalQty == 0.0 && s.totalCostUsd == 0.0
      && s.tpPrice == 0.0 && s.slPrice == 0.0
    case LadderActive => Priced(s) && Sequential(s)
    case Completed => Priced(s) && s.nextSoIndex == -1 && 0 <= s.safetyOrdersFilled <= s.config.maxSafetyOrders
    case Cancelled => s.nextSoIndex == -1
  }

  /** A full ladder takes another fill, by the marker of its fullness: the index -1 equals the next index. */
  predicate Overfills(s: Live, e: Event) {
    s.phase == LadderActive && s.nextSoIndex == -1 && e.SafetyFill? && e.soIndex == -1
  }

  lemma AppendedFill(fills: seq<Fill>, price: real, qty: real, avg: real)
    requires qty > 0.0 && (fills == [] || QtySum(fills) > 0.0)
    requires avg == AvgEntry(fills + [Fill(price, qty, price * qty)])
    ensures
      var more := fills + [Fill(price, qty, price * qty)];
      && QtySum(more) == QtySum(fills) + qty
      && CostSum(more) == CostSum(fills) + price * qty
      && avg * QtySum(more) == CostSum(more)
  {
    var fill := Fill(price, qty, price * qty);
    QtyOfAppend(fills, fill);
    CostOfAppend(fills, fill);
    QuotientTimes(CostSum(fills + [fill]), QtySum(fills + [fill]));
  }

  lemma BaseIsPriced(s: Live, price: real, qty: real)
    requires LiveOk(s) && qty > 0.0 && ApplyBaseFill(s, price, qty).Success?
    ensures LiveOk(ApplyBaseFill(s, price, qty).value.state)
  {
    if s.phase == AwaitingBase {
      var fill := Fill(price, qty, price * qty);
      assert [] + [fill] == [fill];
      QtyOfAppend([], fill);
      CostOfAppend([], fill);
      hide Against;
      hide InFavour;
    }
  }

  lemma SafetyIsPriced(s: Live, soIndex: int, price: real, qty: real)
    requires s.phase == LadderActive && s.schedule.Some? && Priced(s) && qty > 0.0 && soIndex == s.nextSoIndex
    ensures Priced(ApplySafetyFill(s, soIndex, price, qty).state)
  {
    hide Against;
    hide InFavour;
    AppendedFill(s.fills, price, qty, ApplySafetyFill(s, soIndex, price, qty).state.avgEntryPrice);
    hide AvgEntry;
  }

  /** Every transition keeps the ladder sequential and priced by its fills, except exactly that one. */
  lemma HandleKeepsOkExactly(s: Live, e: Event)
    requires LiveOk(s) && Proper(e)
    ensures LiveOk(Handle(s, e)) <==> !Overfills(s, e)
  {
    match e
    case BaseFill(price, qty) =>
      if ApplyBaseFill(s, price, qty).Success? { BaseIsPriced(s, price, qty); }
    case SafetyFill(soIndex, price, qty) =>
      if s.phase == LadderActive && soIndex == s.nextSoIndex {
        SafetyIsPriced(s, soIndex, price, qty);
        hide Priced;
        hide AvgEntry;
      }
    case Complete =>
    case Cancel =>
  }

  /** A transition reports changed levels exactly if it took the fill. */
  lemma ChangesAreReported(s: Live, soIndex: int, price: real, qty: real)
    requires LiveOk(s)
    ensures
      var base, safety := ApplyBaseFill(s, price, qty), ApplySafetyFill(s, soIndex, price, qty);
      && (base.Success? ==> (base.value.exitLevelsChanged <==> base.value.state != s))
      && (safety.exitLevelsChanged <==> safety.state != s)
  {
    hide AvgEntry;
    hide Priced;
    hide Against;
    hide InFavour;
  }

  ghost predicate NeverOverfills(start: Live, events: seq<Event>) {
    forall n :: 0 <= n < |events| ==> !Overfills(Life(start, events[..n]), events[n])
  }

  ghost predicate OkThroughout(start: Live, events: seq<Event>) {
    forall n :: 0 <= n <= |events| ==> LiveOk(Life(start, events[..n]))
  }

  /**
   * Over whole lives: the ladder fills its orders in sequence, each at most once, and prices them consistently,
   * exactly if no call fills order -1 of a full ladder. The callers in the worker check the index first.
   */
  lemma {:induction false} LivesAreOkExactly(start: Live, events: seq<Event>)
    requires LiveOk(start) && forall n :: 0 <= n < |events| ==> Proper(events[n])
    ensures OkThroughout(start, events) <==> NeverOverfills(start, events)
  {
    hide LiveOk;
    hide Overfills;
    hide Proper;
    if events == [] {
      assert Life(start, events[..0]) == start;
    } else {
      var before, e := events[..|events| - 1], events[|events| - 1];
      assert forall n :: 0 <= n <= |before| ==> before[..n] == events[..n];
      assert forall n :: 0 <= n < |before| ==> before[n] == events[n];
      LivesAreOkExactly(start, before);
      assert events[..|events|] == events;
      assert Life(start, events) == Handle(Life(start, before), e);
      hide Handle;
      hide Life;
      assert OkThroughout(start, events) <==> OkThroughout(start, before) && LiveOk(Life(start, events));
      assert NeverOverfills(start, events) <==> NeverOverfills(start, before) && !Overfills(Life(start, before), e);
      assert OkThroughout(start, before) ==> LiveOk(Life(start, before)) by { assert before[..|before|] == before; }
      if OkThroughout(start, before) { HandleKeepsOkExactly(Life(start, before), e); }
    }
  }

  lemma InitIsOk(config: DcaConfig, side: Side, stopLossPct: real)
    requires InitDcaState(config, side, stopLossPct).Success?
    ensures LiveOk(InitDcaState(config, side, stopLossPct).value)
  {
  }

  predicate Ended(s: Live) {
    s.phase == Completed || s.phase == Cancelled
  }

  /** Completing ends an active ladder, cancelling any that has not ended; both keep what was filled. */
  lemma EndsExactly(s: Live, e: Event)
    ensures
      var t := Handle(s, e);
      && (t.phase == Completed <==> s.phase == Completed || (e.Complete? && s.phase == LadderActive))
      && (t.phase == Cancelled <==> s.phase == Cancelled || (e.Cancel? && s.phase != Completed))
      && (Ended(s) ==> t == s)
      && (Ended(t) && !Ended(s) ==> t.fills == s.fills && t.slPrice == s.slPrice && t.tpPrice == s.tpPrice)
  {
  }

  /** Over whole lives: what has ended stays exactly as it ended. */
  lemma {:induction false} EndedForGood(start: Live, events: seq<Event>, n: nat)
    requires n <= |events| && Ended(Life(start, events[..n]))
    ensures Life(start, events) == Life(start, events[..n])
  {
    if n == |events| {
      assert events[..n] == events;
    } else {
      var before := events[..|events| - 1];
      assert before[..n] == events[..n];
      EndedForGood(start, before, n);
      EndsExactly(Life(start, before), events[|events| - 1]);
    }
  }

  /** Filling order -1 of a full ladder makes its first order pending a second time. */
  lemma OverfillReopens(s: Live, price: real, qty: real)
    requires LiveOk(s) && s.phase == LadderActive && s.nextSoIndex == -1 && s.config.maxSafetyOrders > 0
    ensures
      var t := Handle(s, SafetyFill(-1, price, qty));
      t.nextSoIndex == 0 && t.safetyOrdersFilled == s.config.maxSafetyOrders + 1
  {
    hide AvgEntry;
    hide Priced;
  }

  /** A transition repeated changes nothing, except that one on a ladder without safety orders. */
  lemma ReplayChangesExactly(s: Live, e: Event)
    requires LiveOk(s)
    ensures Handle(Handle(s, e), e) == Handle(s, e) <==> !(Overfills(s, e) && s.schedule == Some([]))
  {
    hide AvgEntry;
    hide Priced;
    hide Against;
    hide InFavour;
    hide Usable;
  }

  // ----- the backtest's ladder -----

  /** The ladder as the backtest keeps it. */
  function View(s: Live): DcaState
    requires s.safetyOrdersFilled >= 0
  {
    DcaState(s.fills, s.totalQty, s.avgEntryPrice, s.totalCostUsd, s.tpPrice, s.slPrice, s.safetyOrdersFilled, s.side)
  }

  /** Every order fills whole and at its own level. */
  function Ideal(config: DcaConfig, entry: real, side: Side, n: nat): seq<Event>
    requires Usable(config, entry, side) && n <= config.maxSafetyOrders
  {
    if n == 0 then [BaseFill(entry, config.baseOrderSizeUsd / entry)]
    else
      var order := Level(config, entry, side, n - 1);
      Ideal(config, entry, side, n - 1) + [SafetyFill(n - 1, order.triggerPrice, order.qty)]
  }

  /** The live ladder is active and in the backtest's state after `n` fills. */
  ghost predicate Mirrors(s: Live, config: DcaConfig, entry: real, side: Side, slPct: real, n: nat)
    requires Usable(config, entry, side) && n <= config.maxSafetyOrders
  {
    && s.phase == LadderActive && LiveOk(s)
    && s.baseEntryPrice == entry && s.side == side && s.config == config && s.stopLossPct == slPct
    && s.safetyOrdersFilled == n && View(s) == StateAt(config, entry, side, slPct, n)
  }

  /** Fed by such fills, the live ladder goes through the backtest's states. */
  lemma {:induction false} LiveLadderIsBacktestLadder(init: Live, config: DcaConfig, entry: real, side: Side,
                                                      slPct: real, n: nat)
    requires Usable(config, entry, side) && n <= config.maxSafetyOrders
    requires InitDcaState(config, side, slPct) == Success(init)
    ensures Mirrors(Life(init, Ideal(config, entry, side, n)), config, entry, side, slPct, n)
  {
    hide Mirrors;
    hide Handle;
    hide InitDcaState;
    if n == 0 {
      FirstEvent(init, BaseFill(entry, config.baseOrderSizeUsd / entry));
      BaseFillAgrees(init, config, entry, side, slPct);
    } else {
      hide Life;
      hide Ideal;
      hide Level;
      LiveLadderIsBacktestLadder(init, config, entry, side, slPct, n - 1);
      IdealStep(init, config, entry, side, n - 1);
      NextFillAgrees(Life(init, Ideal(config, entry, side, n - 1)), config, entry, side, slPct, n - 1);
    }
  }

  lemma FirstEvent(init: Live, e: Event)
    ensures Life(init, [e]) == Handle(init, e)
  {
    hide Handle;
    assert [e][..0] == [] && Life(init, []) == init;
  }

  lemma BaseFillAgrees(init: Live, config: DcaConfig, entry: real, side: Side, slPct: real)
    requires Usable(config, entry, side) && InitDcaState(config, side, slPct) == Success(init)
    ensures Mirrors(Handle(init, BaseFill(entry, config.baseOrderSizeUsd / entry)), config, entry, side, slPct, 0)
  {
    DivPos(config.baseOrderSizeUsd, entry);
    hide Mirrors;
    WholeBaseFill(init, config, entry, side, slPct, config.baseOrderSizeUsd / entry);
  }

  lemma BaseSize(init: Live, price: real, qty: real, size: real)
    requires init.phase == AwaitingBase && OrdersFor(init.config, price, init.side).Success? && price * qty == size
    ensures
      var t := Handle(init, BaseFill(price, qty));
      && t.phase == LadderActive && t.fills == [Fill(price, qty, size)] && t.totalCostUsd == size
  {
  }

  lemma WholeBaseFill(init: Live, config: DcaConfig, entry: real, side: Side, slPct: real, qty: real)
    requires Usable(config, entry, side) && InitDcaState(config, side, slPct) == Success(init)
    requires qty > 0.0 && qty == config.baseOrderSizeUsd / entry && entry * qty == config.baseOrderSizeUsd
    ensures Mirrors(Handle(init, BaseFill(entry, qty)), config, entry, side, slPct, 0)
  {
    BaseSize(init, entry, qty, config.baseOrderSizeUsd);
    var t := Handle(init, BaseFill(entry, qty));
    assert t.phase == LadderActive && t.baseEntryPrice == entry && t.safetyOrdersFilled == 0;
    HandleKeepsOkExactly(init, BaseFill(entry, qty));
    assert t.fills == [Fill(entry, qty, config.baseOrderSizeUsd)];
    assert View(t) == OpenDcaPosition(entry, qty, config.baseOrderSizeUsd, config.takeProfitPct, slPct, side);
  }

  lemma IdealStep(init: Live, config: DcaConfig, entry: real, side: Side, n: nat)
    requires Usable(config, entry, side) && n < config.maxSafetyOrders
    ensures
      var order := Level(config, entry, side, n);
      Life(init, Ideal(config, entry, side, n + 1))
      == Handle(Life(init, Ideal(config, entry, side, n)), SafetyFill(n, order.triggerPrice, order.qty))
  {
    hide Handle;
    hide Level;
    var order := Level(config, entry, side, n);
    var all := Ideal(config, entry, side, n + 1);
    assert all == Ideal(config, entry, side, n) + [SafetyFill(n, order.triggerPrice, order.qty)];
    assert all[..|all| - 1] == Ideal(config, entry, side, n);
  }

  lemma NextFillAgrees(s: Live, config: DcaConfig, entry: real, side: Side, slPct: real, n: nat)
    requires Usable(config, entry, side) && n < config.maxSafetyOrders && Mirrors(s, config, entry, side, slPct, n)
    ensures
      var order := Level(config, entry, side, n);
      Mirrors(Handle(s, SafetyFill(n, order.triggerPrice, order.qty)), config, entry, side, slPct, n + 1)
  {
    var order := Level(config, entry, side, n);
    LevelCost(config, entry, side, n);
    hide Level;
    HandleKeepsOkExactly(s, SafetyFill(n, order.triggerPrice, order.qty));
    SafetyFillAgrees(s, n, order.triggerPrice, order.qty, order.orderSizeUsd);
    hide View;
    hide Priced;
    hide ApplySafetyOrderFill;
    hide AvgEntry;
    assert StateAt(config, entry, side, slPct, n + 1)
        == FillLevel(config, slPct, StateAt(config, entry, side, slPct, n), order);
  }

  /** The two programs fill a safety order alike. */
  lemma SafetyFillAgrees(s: Live, n: nat, price: real, qty: real, size: real)
    requires s.phase == LadderActive && s.schedule.Some? && s.nextSoIndex == n == s.safetyOrdersFilled
    requires size == price * qty
    ensures
      var t := Handle(s, SafetyFill(n, price, qty));
      && t.safetyOrdersFilled == n + 1
      && View(t) == ApplySafetyOrderFill(View(s), price, qty, size, s.config.takeProfitPct, s.stopLossPct)
  {
    hide AvgEntry;
    hide Against;
    hide InFavour;
  }

  // ----- triggers and exposure -----

  predicate ReachedBy(order: SafetyOrder, price: real, side: Side) {
    match side
    case Long => price <= order.triggerPrice
    case Short => price >= order.triggerPrice
  }

  /** Orders from index `i` on that the price has reached, up to the first it has not. */
  function ReachedFrom(orders: seq<SafetyOrder>, i: nat, price: real, side: Side): seq<SafetyOrder>
    decreases |orders| - i
  {
    if i >= |orders| || !ReachedBy(orders[i], price, side) then []
    else [orders[i]] + ReachedFrom(orders, i + 1, price, side)
  }

  function Triggered(s: Live, price: real): seq<SafetyOrder> {
    if s.phase != LadderActive || s.schedule == None || s.nextSoIndex < 0 then []
    else ReachedFrom(s.schedule.value, s.nextSoIndex, price, s.side)
  }

  method EvaluateTriggeredSOs(s: Live, price: real) returns (triggered: seq<SafetyOrder>)
    ensures triggered == Triggered(s, price)
  {
    if s.phase != LadderActive || s.schedule == None || s.nextSoIndex < 0 { return []; }
    triggered := [];
    var orders := s.schedule.value;
    var i: nat := s.nextSoIndex;
    while i < |orders|
      invariant triggered + ReachedFrom(orders, i, price, s.side) == ReachedFrom(orders, s.nextSoIndex, price, s.side)
    {
      var so := orders[i];
      var isTriggered := if s.side == Long then price <= so.triggerPrice else price >= so.triggerPrice;
      if !isTriggered { break; }
      triggered := triggered + [so];
      i := i + 1;
    }
  }

  lemma {:induction false} ReachedFromLadder(config: DcaConfig, entry: real, side: Side, i: nat, j: nat, price: real)
    requires Usable(config, entry, side) && i <= j < config.maxSafetyOrders
    ensures
      var orders := Levels(config, entry, side, config.maxSafetyOrders);
      Level(config, entry, side, j) in ReachedFrom(orders, i, price, side)
      <==> ReachedBy(Level(config, entry, side, j), price, side)
    decreases j - i
  {
    var orders := Levels(config, entry, side, config.maxSafetyOrders);
    TriggersOrdered(config, entry, side, i, j);
    if i < j {
      ReachedFromLadder(config, entry, side, i + 1, j, price);
      assert orders[i] == Level(config, entry, side, i) && orders[i].index == i;
      assert Level(config, entry, side, j).index == j;
    } else {
      assert orders[i] == Level(config, entry, side, j);
    }
  }

  lemma {:induction false} ReachedFromLater(orders: seq<SafetyOrder>, i: nat, price: real, side: Side,
                                            order: SafetyOrder)
    requires order in ReachedFrom(orders, i, price, side)
    requires forall k :: 0 <= k < |orders| ==> orders[k].index == k
    ensures i <= order.index < |orders| && order == orders[order.index]
    decreases |orders| - i
  {
    if order != orders[i] {
      ReachedFromLater(orders, i + 1, price, side, order);
    }
  }

  /** On every sound ladder the scan returns exactly the pending orders the price has reached, wherever they are. */
  lemma TriggersExactlyPending(s: Live, price: real, j: nat)
    requires LiveOk(s) && s.phase == LadderActive && j < s.config.maxSafetyOrders
    ensures
      var order := Level(s.config, s.baseEntryPrice, s.side, j);
      order in Triggered(s, price)
      <==> && s.safetyOrdersFilled <= j
           && if s.side == Long then price <= order.triggerPrice else price >= order.triggerPrice
  {
    hide Priced;
    var config, entry, side := s.config, s.baseEntryPrice, s.side;
    var orders := Levels(config, entry, side, config.maxSafetyOrders);
    var order := Level(config, entry, side, j);
    if s.safetyOrdersFilled <= j {
      ReachedFromLadder(config, entry, side, s.safetyOrdersFilled, j, price);
    } else if order in Triggered(s, price) {
      ReachedFromLater(orders, s.safetyOrdersFilled, price, side, order);
    }
  }

  function SizeSum(orders: seq<SafetyOrder>, i: nat): real
    decreases |orders| - i
  {
    if i >= |orders| then 0.0 else orders[i].orderSizeUsd + SizeSum(orders, i + 1)
  }

  method GetRemainingExposure(s: Live) returns (remaining: real)
    ensures remaining == if s.schedule == None || s.nextSoIndex < 0 then 0.0
                         else SizeSum(s.schedule.value, s.nextSoIndex)
  {
    if s.schedule == None || s.nextSoIndex < 0 { return 0.0; }
    remaining := 0.0;
    var i: nat := s.nextSoIndex;
    while i < |s.schedule.value|
      invariant remaining + SizeSum(s.schedule.value, i) == SizeSum(s.schedule.value, s.nextSoIndex)
    {
      remaining := remaining + s.schedule.value[i].orderSizeUsd;
      i := i + 1;
    }
  }

  /** What is left of an active ladder is its whole exposure less that of the orders filled. */
  lemma {:induction false} RemainingIsRest(config: DcaConfig, entry: real, side: Side, i: nat)
    requires Usable(config, entry, side) && i <= config.maxSafetyOrders
    ensures SizeSum(Levels(config, entry, side, config.maxSafetyOrders), i)
         == Exposure(config, config.maxSafetyOrders) - Exposure(config, i)
    decreases config.maxSafetyOrders - i
  {
    if i < config.maxSafetyOrders {
      RemainingIsRest(config, entry, side, i + 1);
      assert Levels(config, entry, side, config.maxSafetyOrders)[i] == Level(config, entry, side, i);
    }
  }
}
