/** Dollar-cost-averaging ladders (`dcaPlanning.ts`): schedule, average entry, exposure. */
module DcaPlanning {
  import opened Wrappers
  import opened Market
  import opened Reals

  datatype DcaConfig = DcaConfig(
    baseOrderSizeUsd: real,
    maxSafetyOrders: int,
    priceStepPct: real,
    stepScale: real,
    volumeScale: real,
    takeProfitPct: real
  )

  datatype SafetyOrder = SafetyOrder(
    index: nat,
    deviationPct: real,
    triggerPrice: real,
    orderSizeUsd: real,
    qty: real
  )

  datatype Schedule = Schedule(
    baseEntryPrice: real,
    baseQty: real,
    baseOrderSizeUsd: real,
    safetyOrders: seq<SafetyOrder>,
    totalCapitalUsd: real,
    worstCaseAvgEntry: real,
    worstCaseTpPrice: real
  )

  datatype Fill = Fill(price: real, qty: real, sizeUsd: real)

  datatype DcaState = DcaState(
    fills: seq<Fill>,
    totalQty: real,
    avgEntryPrice: real,
    totalCostUsd: real,
    tpPrice: real,
    slPrice: real,
    safetyOrdersFilled: nat,
    side: Side
  )

  datatype ConfigError =
    | BadBaseOrder
    | BadMaxSafetyOrders
    | BadPriceStep
    | BadStepScale
    | BadVolumeScale
    | BadTakeProfit
    | DeviationTooLarge(reached: real)

  datatype ScheduleError = InvalidConfig(error: ConfigError) | BadEntryPrice

  // ----- the geometric ladder -----

  function Pow(x: real, n: nat): real {
    if n == 0 then 1.0 else Pow(x, n - 1) * x
  }

  /** The `k`-th price step, in percent. */
  function StepPct(config: DcaConfig, k: nat): real {
    if k == 0 then config.priceStepPct else StepPct(config, k - 1) * config.stepScale
  }

  /** Distance of the `n`-th safety order from the base entry, in percent. */
  function Deviation(config: DcaConfig, n: nat): real {
    if n == 0 then 0.0 else Deviation(config, n - 1) + StepPct(config, n - 1)
  }

  /** Size in USD of the `k`-th safety order. */
  function OrderSize(config: DcaConfig, k: nat): real {
    if k == 0 then config.baseOrderSizeUsd * config.volumeScale
    else OrderSize(config, k - 1) * config.volumeScale
  }

  /** Capital committed by the base order and the first `n` safety orders. */
  function Exposure(config: DcaConfig, n: nat): real {
    if n == 0 then config.baseOrderSizeUsd else Exposure(config, n - 1) + OrderSize(config, n - 1)
  }

  /** The price steps and their sum are the geometric series the documentation describes. */
  lemma {:induction false} StepsAreGeometric(config: DcaConfig, n: nat)
    ensures StepPct(config, n) == config.priceStepPct * Pow(config.stepScale, n)
    ensures (config.stepScale - 1.0) * Deviation(config, n) == config.priceStepPct * (Pow(config.stepScale, n) - 1.0)
  {
    assert Pow(config.stepScale, 0) == 1.0;
    if n > 0 {
      StepsAreGeometric(config, n - 1);
      NextGeometricTerm(config.priceStepPct, Pow(config.stepScale, n - 1), config.stepScale,
                        StepPct(config, n - 1), Deviation(config, n - 1));
    }
  }

  /** So are the order sizes, whose series starts with the base order itself. */
  lemma {:induction false} SizesAreGeometric(config: DcaConfig, n: nat)
    ensures OrderSize(config, n) == config.baseOrderSizeUsd * Pow(config.volumeScale, n + 1)
    ensures (config.volumeScale - 1.0) * Exposure(config, n)
         == config.baseOrderSizeUsd * (Pow(config.volumeScale, n + 1) - 1.0)
  {
    var v, b := config.volumeScale, config.baseOrderSizeUsd;
    assert Pow(v, n + 1) == Pow(v, n) * v;
    if n == 0 {
      assert Pow(v, 0) == 1.0;
    } else {
      SizesAreGeometric(config, n - 1);
      NextGeometricTerm(b, Pow(v, n), v, OrderSize(config, n - 1), Exposure(config, n - 1));
    }
  }

  lemma NextGeometricTerm(first: real, power: real, ratio: real, term: real, sum: real)
    requires term == first * power && (ratio - 1.0) * sum == first * (power - 1.0)
    ensures term * ratio == first * (power * ratio)
    ensures (ratio - 1.0) * (sum + term) == first * (power * ratio - 1.0)
  {
    var t := first * power;
    assert t * ratio == first * (power * ratio);
    assert (ratio - 1.0) * (sum + t) == (ratio - 1.0) * sum + t * ratio - t;
    assert first * (power - 1.0) == t - first;
    assert first * (power * ratio - 1.0) == first * (power * ratio) - first;
  }

  // ----- configuration checks -----

  /** What a ladder needs: positive sizes, non-shrinking steps, and a deviation that never reaches 100%. */
  ghost predicate ValidConfig(config: DcaConfig) {
    && config.baseOrderSizeUsd > 0.0
    && config.maxSafetyOrders >= 0
    && config.priceStepPct > 0.0
    && config.stepScale >= 1.0
    && config.volumeScale >= 1.0
    && config.takeProfitPct > 0.0
    && forall n: nat :: n <= config.maxSafetyOrders ==> Deviation(config, n) < 100.0
  }

  /** The first check that fails, in the order the source runs them. */
  function FirstProblem(config: DcaConfig): Option<ConfigError> {
    if config.baseOrderSizeUsd <= 0.0 then Some(BadBaseOrder)
    else if config.maxSafetyOrders < 0 then Some(BadMaxSafetyOrders)
    else if config.priceStepPct <= 0.0 then Some(BadPriceStep)
    else if config.stepScale < 1.0 then Some(BadStepScale)
    else if config.volumeScale < 1.0 then Some(BadVolumeScale)
    else if config.takeProfitPct <= 0.0 then Some(BadTakeProfit)
    else if Deviation(config, config.maxSafetyOrders) >= 100.0
    then Some(DeviationTooLarge(Deviation(config, config.maxSafetyOrders)))
    else None
  }

  lemma {:induction false} LadderGrows(config: DcaConfig, n: nat)
    requires config.baseOrderSizeUsd > 0.0 && config.priceStepPct > 0.0
    requires config.stepScale >= 1.0 && config.volumeScale >= 1.0
    ensures StepPct(config, n) > 0.0 && OrderSize(config, n) > 0.0
    ensures Deviation(config, n) < Deviation(config, n + 1)
    ensures Exposure(config, n) < Exposure(config, n + 1)
    ensures Deviation(config, n) >= 0.0 && Exposure(config, n) > 0.0
  {
    if n == 0 {
      MulPos(config.baseOrderSizeUsd, config.volumeScale);
    } else {
      LadderGrows(config, n - 1);
      MulPos(StepPct(config, n - 1), config.stepScale);
      MulPos(OrderSize(config, n - 1), config.volumeScale);
    }
    assert Deviation(config, n + 1) == Deviation(config, n) + StepPct(config, n);
    assert Exposure(config, n + 1) == Exposure(config, n) + OrderSize(config, n);
  }

  lemma {:induction false} LadderMonotone(config: DcaConfig, m: nat, n: nat)
    requires config.baseOrderSizeUsd > 0.0 && config.priceStepPct > 0.0
    requires config.stepScale >= 1.0 && config.volumeScale >= 1.0
    requires m <= n
    ensures Deviation(config, m) <= Deviation(config, n)
    ensures Exposure(config, m) <= Exposure(config, n)
    ensures m < n ==> Deviation(config, m) < Deviation(config, n)
    decreases n
  {
    if m < n {
      LadderMonotone(config, m, n - 1);
      LadderGrows(config, n - 1);
    }
  }

  /** Checking only the last deviation is enough: the source's test decides validity exactly. */
  lemma {:induction false} ChecksDecideValidity(config: DcaConfig)
    ensures FirstProblem(config) == None <==> ValidConfig(config)
  {
    if FirstProblem(config) == None {
      forall n: nat | n <= config.maxSafetyOrders
        ensures Deviation(config, n) < 100.0
      {
        LadderMonotone(config, n, config.maxSafetyOrders);
      }
    }
  }

  method CalculateMaxDeviation(config: DcaConfig) returns (cumulative: real)
    ensures cumulative == Deviation(config, if config.maxSafetyOrders < 0 then 0 else config.maxSafetyOrders)
  {
    cumulative := 0.0;
    var step := config.priceStepPct;
    var i := 0;
    while i < config.maxSafetyOrders
      invariant 0 <= i && (i <= config.maxSafetyOrders || i == 0)
      invariant cumulative == Deviation(config, i)
      invariant step == StepPct(config, i)
    {
      cumulative := cumulative + step;
      step := step * config.stepScale;
      i := i + 1;
    }
  }

  method CalculateMaxExposure(config: DcaConfig) returns (total: real)
    ensures total == Exposure(config, if config.maxSafetyOrders < 0 then 0 else config.maxSafetyOrders)
  {
    total := config.baseOrderSizeUsd;
    var currentSizeUsd := config.baseOrderSizeUsd * config.volumeScale;
    var i := 0;
    while i < config.maxSafetyOrders
      invariant 0 <= i && (i <= config.maxSafetyOrders || i == 0)
      invariant total == Exposure(config, i)
      invariant currentSizeUsd == OrderSize(config, i)
    {
      total := total + currentSizeUsd;
      currentSizeUsd := currentSizeUsd * config.volumeScale;
      i := i + 1;
    }
  }

  method ValidateDcaConfig(config: DcaConfig) returns (problem: Option<ConfigError>)
    ensures problem == FirstProblem(config)
    ensures problem == None <==> ValidConfig(config)
  {
    ChecksDecideValidity(config);
    if config.baseOrderSizeUsd <= 0.0 { return Some(BadBaseOrder); }
    if config.maxSafetyOrders < 0 { return Some(BadMaxSafetyOrders); }
    if config.priceStepPct <= 0.0 { return Some(BadPriceStep); }
    if config.stepScale < 1.0 { return Some(BadStepScale); }
    if config.volumeScale < 1.0 { return Some(BadVolumeScale); }
    if config.takeProfitPct <= 0.0 { return Some(BadTakeProfit); }
    var maxDev := CalculateMaxDeviation(config);
    if maxDev >= 100.0 { return Some(DeviationTooLarge(maxDev)); }
    return None;
  }

  // ----- schedule -----

  /** A price moved against the position by `pct` percent: below for long, above for short. */
  function Against(price: real, pct: real, side: Side): real {
    match side
    case Long => price * (1.0 - pct / 100.0)
    case Short => price * (1.0 + pct / 100.0)
  }

  /** A price moved in favour of the position by `pct` percent. */
  function InFavour(price: real, pct: real, side: Side): real {
    match side
    case Long => price * (1.0 + pct / 100.0)
    case Short => price * (1.0 - pct / 100.0)
  }

  function Trigger(config: DcaConfig, entry: real, side: Side, k: nat): real {
    Against(entry, Deviation(config, k + 1), side)
  }

  /** `a` is a worse price to enter at than `b`, so averaging in at `a` helps. */
  predicate Beyond(a: real, b: real, side: Side) {
    match side
    case Long => a < b
    case Short => a > b
  }

  /** Triggers are positive and each lies strictly beyond the previous one and the entry. */
  lemma {:induction false} TriggersOrdered(config: DcaConfig, entry: real, side: Side, j: nat, k: nat)
    requires ValidConfig(config) && entry > 0.0
    requires j <= k < config.maxSafetyOrders
    ensures Trigger(config, entry, side, k) > 0.0
    ensures Beyond(Trigger(config, entry, side, j), entry, side)
    ensures j < k ==> Beyond(Trigger(config, entry, side, k), Trigger(config, entry, side, j), side)
  {
    LadderGrows(config, j);
    LadderMonotone(config, j + 1, k + 1);
    AgainstOrdered(entry, Deviation(config, j + 1), Deviation(config, k + 1), side);
  }

  lemma AgainstOrdered(entry: real, near: real, far: real, side: Side)
    requires entry > 0.0 && 0.0 < near <= far < 100.0
    ensures Against(entry, far, side) > 0.0
    ensures Beyond(Against(entry, near, side), entry, side)
    ensures near < far ==> Beyond(Against(entry, far, side), Against(entry, near, side), side)
  {
    var n, f := near / 100.0, far / 100.0;
    assert 0.0 < n <= f < 1.0 && (near < far ==> n < f);
    match side
    case Long =>
      MulPos(entry, 1.0 - f);
      MulStrict(1.0 - n, 1.0, entry);
      if near < far { MulStrict(1.0 - f, 1.0 - n, entry); }
    case Short =>
      MulPos(entry, 1.0 + f);
      MulStrict(1.0, 1.0 + n, entry);
      if near < far { MulStrict(1.0 + n, 1.0 + f, entry); }
  }

  function OrderAt(index: nat, deviationPct: real, triggerPrice: real, orderSizeUsd: real): SafetyOrder
    requires triggerPrice > 0.0
  {
    SafetyOrder(index, deviationPct, triggerPrice, orderSizeUsd, orderSizeUsd / triggerPrice)
  }

  function Level(config: DcaConfig, entry: real, side: Side, k: nat): SafetyOrder
    requires Trigger(config, entry, side, k) > 0.0
  {
    OrderAt(k, Deviation(config, k + 1), Trigger(config, entry, side, k), OrderSize(config, k))
  }

  /** The first `n` rungs of the ladder. */
  function Levels(config: DcaConfig, entry: real, side: Side, n: nat): (levels: seq<SafetyOrder>)
    requires forall k: nat :: k < n ==> Trigger(config, entry, side, k) > 0.0
    ensures |levels| == n
  {
    seq(n, k requires 0 <= k < n => Level(config, entry, side, k))
  }

  // ----- fills and average entry -----

  function QtySum(fills: seq<Fill>): real {
    if fills == [] then 0.0 else QtySum(fills[..|fills| - 1]) + fills[|fills| - 1].qty
  }

  function CostSum(fills: seq<Fill>): real {
    if fills == [] then 0.0
    else CostSum(fills[..|fills| - 1]) + fills[|fills| - 1].price * fills[|fills| - 1].qty
  }

  function AvgEntry(fills: seq<Fill>): real {
    if |fills| == 0 || QtySum(fills) == 0.0 then 0.0 else CostSum(fills) / QtySum(fills)
  }

  /** The average price: times the quantity it is the cost; of no quantity it is zero. */
  lemma AverageIsCostPerQty(fills: seq<Fill>)
    ensures QtySum(fills) != 0.0 ==> AvgEntry(fills) * QtySum(fills) == CostSum(fills)
    ensures QtySum(fills) == 0.0 ==> AvgEntry(fills) == 0.0
  {
    if QtySum(fills) != 0.0 {
      assert CostSum(fills) / QtySum(fills) * QtySum(fills) == CostSum(fills);
    }
  }

  method CalculateAvgEntry(fills: seq<Fill>) returns (avg: real)
    ensures avg == AvgEntry(fills)
  {
    if |fills| == 0 { return 0.0; }
    var totalCost, totalQty := 0.0, 0.0;
    for i := 0 to |fills|
      invariant totalCost == CostSum(fills[..i]) && totalQty == QtySum(fills[..i])
    {
      assert fills[..i + 1][..i] == fills[..i];
      totalCost := totalCost + fills[i].price * fills[i].qty;
      totalQty := totalQty + fills[i].qty;
    }
    assert fills[..|fills|] == fills;
    if totalQty == 0.0 { return 0.0; }
    return totalCost / totalQty;
  }

  function OpenDcaPosition(basePrice: real, baseQty: real, baseSizeUsd: real, takeProfitPct: real,
                           stopLossPct: real, side: Side): DcaState
  {
    DcaState([Fill(basePrice, baseQty, baseSizeUsd)], baseQty, basePrice, baseSizeUsd,
             InFavour(basePrice, takeProfitPct, side), Against(basePrice, stopLossPct, side), 0, side)
  }

  function ApplySafetyOrderFill(state: DcaState, price: real, qty: real, sizeUsd: real,
                                takeProfitPct: real, stopLossPct: real): DcaState
  {
    var fills := state.fills + [Fill(price, qty, sizeUsd)];
    var avg := AvgEntry(fills);
    DcaState(fills, state.totalQty + qty, avg, state.totalCostUsd + sizeUsd,
             InFavour(avg, takeProfitPct, state.side), Against(avg, stopLossPct, state.side),
             state.safetyOrdersFilled + 1, state.side)
  }

  /** Quantity bought by the base order and the first `k` safety orders. */
  function LadderQty(config: DcaConfig, entry: real, side: Side, k: nat): real
    requires entry > 0.0
    requires forall j: nat :: j < k ==> Trigger(config, entry, side, j) > 0.0
  {
    if k == 0 then config.baseOrderSizeUsd / entry
    else LadderQty(config, entry, side, k - 1) + Level(config, entry, side, k - 1).qty
  }

  lemma {:induction false} TriggersPositive(config: DcaConfig, entry: real, side: Side)
    requires ValidConfig(config) && entry > 0.0
    ensures forall k: nat :: k < config.maxSafetyOrders ==> Trigger(config, entry, side, k) > 0.0
  {
    forall k: nat | k < config.maxSafetyOrders
      ensures Trigger(config, entry, side, k) > 0.0
    {
      TriggersOrdered(config, entry, side, k, k);
    }
  }

  lemma {:induction false} LadderQtyPositive(config: DcaConfig, entry: real, side: Side, k: nat)
    requires ValidConfig(config) && entry > 0.0 && k <= config.maxSafetyOrders
    requires forall j: nat :: j < config.maxSafetyOrders ==> Trigger(config, entry, side, j) > 0.0
    ensures LadderQty(config, entry, side, k) > 0.0
  {
    if k == 0 {
      DivPos(config.baseOrderSizeUsd, entry);
    } else {
      LadderQtyPositive(config, entry, side, k - 1);
      LadderGrows(config, k - 1);
      DivPos(OrderSize(config, k - 1), Trigger(config, entry, side, k - 1));
    }
  }

  lemma QuotientTimes(a: real, b: real)
    requires b > 0.0
    ensures a / b * b == a
  {
  }

  lemma DivPos(a: real, b: real)
    requires a > 0.0 && b > 0.0
    ensures a / b > 0.0
    ensures b * (a / b) == a
  {
  }

  /** One more rung: below 100%, at a positive trigger, and what it adds to the list and the totals. */
  lemma NextRung(config: DcaConfig, entry: real, side: Side, i: nat)
    requires ValidConfig(config) && i < config.maxSafetyOrders && entry > 0.0
    requires forall k: nat :: k < config.maxSafetyOrders ==> Trigger(config, entry, side, k) > 0.0
    ensures Deviation(config, i + 1) < 100.0
    ensures Trigger(config, entry, side, i) == Against(entry, Deviation(config, i + 1), side)
    ensures Level(config, entry, side, i)
         == OrderAt(i, Deviation(config, i + 1), Trigger(config, entry, side, i), OrderSize(config, i))
  {
  }

  /** The schedule loop: a valid configuration never reaches its defensive breaks. */
  method BuildLadder(config: DcaConfig, entry: real, side: Side)
    returns (safetyOrders: seq<SafetyOrder>, totalCostUsd: real, totalQty: real)
    requires ValidConfig(config) && entry > 0.0
    requires forall k: nat :: k < config.maxSafetyOrders ==> Trigger(config, entry, side, k) > 0.0
    ensures safetyOrders == Levels(config, entry, side, config.maxSafetyOrders)
    ensures totalCostUsd == Exposure(config, config.maxSafetyOrders)
    ensures totalQty == LadderQty(config, entry, side, config.maxSafetyOrders)
  {
    safetyOrders := [];
    totalCostUsd, totalQty := config.baseOrderSizeUsd, config.baseOrderSizeUsd / entry;
    var cumulativeDeviation, currentStepPct := 0.0, config.priceStepPct;
    var currentSizeUsd := config.baseOrderSizeUsd * config.volumeScale;
    for i := 0 to config.maxSafetyOrders
      invariant cumulativeDeviation == Deviation(config, i) && currentStepPct == StepPct(config, i)
      invariant currentSizeUsd == OrderSize(config, i)
      invariant safetyOrders == Levels(config, entry, side, i)
      invariant totalCostUsd == Exposure(config, i)
      invariant totalQty == LadderQty(config, entry, side, i)
    {
      NextRung(config, entry, side, i);
      hide Against;
      hide OrderAt;
      hide Level;
      hide ValidConfig;
      cumulativeDeviation := cumulativeDeviation + currentStepPct;
      assert cumulativeDeviation == Deviation(config, i + 1) < 100.0;
      if cumulativeDeviation >= 100.0 { break; }
      var triggerPrice := Against(entry, cumulativeDeviation, side);
      assert triggerPrice == Trigger(config, entry, side, i) > 0.0;
      if triggerPrice <= 0.0 { break; }
      var order := OrderAt(i, cumulativeDeviation, triggerPrice, currentSizeUsd);
      safetyOrders := safetyOrders + [order];
      totalCostUsd := totalCostUsd + currentSizeUsd;
      totalQty := totalQty + order.qty;
      currentStepPct := currentStepPct * config.stepScale;
      currentSizeUsd := currentSizeUsd * config.volumeScale;
    }
  }

  /** Builds the schedule, refusing an invalid configuration or a non-positive entry price. */
  method GenerateSafetyOrderSchedule(config: DcaConfig, entry: real, side: Side)
    returns (result: Result<Schedule, ScheduleError>)
    ensures result.Success? <==> ValidConfig(config) && entry > 0.0
    ensures result.Failure? ==>
      result.error == if FirstProblem(config).Some? then InvalidConfig(FirstProblem(config).value) else BadEntryPrice
    ensures result.Success? ==>
      && (forall k: nat :: k < config.maxSafetyOrders ==> Trigger(config, entry, side, k) > 0.0)
      && result.value.safetyOrders == Levels(config, entry, side, config.maxSafetyOrders)
      && result.value.baseEntryPrice == entry
      && result.value.baseQty == config.baseOrderSizeUsd / entry
      && result.value.baseOrderSizeUsd == config.baseOrderSizeUsd
      && result.value.totalCapitalUsd == Exposure(config, config.maxSafetyOrders)
      && result.value.worstCaseAvgEntry * LadderQty(config, entry, side, config.maxSafetyOrders)
         == result.value.totalCapitalUsd
      && result.value.worstCaseTpPrice == InFavour(result.value.worstCaseAvgEntry, config.takeProfitPct, side)
  {
    var problem := ValidateDcaConfig(config);
    if problem.Some? { return Failure(InvalidConfig(problem.value)); }
    if entry <= 0.0 { return Failure(BadEntryPrice); }
    TriggersPositive(config, entry, side);
    var safetyOrders, totalCostUsd, totalQty := BuildLadder(config, entry, side);
    LadderQtyPositive(config, entry, side, config.maxSafetyOrders);
    var worstCaseAvgEntry := if totalQty > 0.0 then totalCostUsd / totalQty else entry;
    QuotientTimes(totalCostUsd, totalQty);
    var worstCaseTpPrice := InFavour(worstCaseAvgEntry, config.takeProfitPct, side);
    return Success(Schedule(entry, config.baseOrderSizeUsd / entry, config.baseOrderSizeUsd, safetyOrders,
                            totalCostUsd, worstCaseAvgEntry, worstCaseTpPrice));
  }
}
