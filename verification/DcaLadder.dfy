/** How a DCA position moves down its ladder, fill by fill and bar by bar. */
module DcaLadder {
  import opened Market
  import opened Reals
  import opened DcaPlanning

  /** The base fill followed by the first `k` safety orders. */
  function LadderFills(config: DcaConfig, entry: real, side: Side, k: nat): (fills: seq<Fill>)
    requires entry > 0.0
    requires forall j: nat :: j < k ==> Trigger(config, entry, side, j) > 0.0
    ensures |fills| == k + 1
  {
    if k == 0 then [Fill(entry, config.baseOrderSizeUsd / entry, config.baseOrderSizeUsd)]
    else
      var order := Level(config, entry, side, k - 1);
      LadderFills(config, entry, side, k - 1) + [Fill(order.triggerPrice, order.qty, order.orderSizeUsd)]
  }

  /** A usable ladder: positive entry, positive triggers, a configuration that passes its checks. */
  ghost predicate Usable(config: DcaConfig, entry: real, side: Side) {
    && ValidConfig(config)
    && entry > 0.0
    && forall k: nat :: k < config.maxSafetyOrders ==> Trigger(config, entry, side, k) > 0.0
  }

  /** The position holds exactly the base order and the first `k` safety orders, consistently priced. */
  ghost predicate OnLadder(config: DcaConfig, entry: real, side: Side, slPct: real, k: nat, s: DcaState)
    requires Usable(config, entry, side) && k <= config.maxSafetyOrders
  {
    && s.fills == LadderFills(config, entry, side, k)
    && s.side == side
    && s.safetyOrdersFilled == k
    && s.totalQty == LadderQty(config, entry, side, k) > 0.0
    && s.totalCostUsd == Exposure(config, k)
    && s.avgEntryPrice * s.totalQty == s.totalCostUsd
    && s.tpPrice == InFavour(s.avgEntryPrice, config.takeProfitPct, side)
    && s.slPrice == Against(s.avgEntryPrice, slPct, side)
  }

  lemma {:induction false} QuantitiesAddUp(config: DcaConfig, entry: real, side: Side, k: nat)
    requires Usable(config, entry, side) && k <= config.maxSafetyOrders
    ensures QtySum(LadderFills(config, entry, side, k)) == LadderQty(config, entry, side, k)
  {
    if k == 0 {
      BaseQty(config, entry, side);
    } else {
      QuantitiesAddUp(config, entry, side, k - 1);
      NextQty(config, entry, side, k - 1);
    }
  }

  lemma BaseQty(config: DcaConfig, entry: real, side: Side)
    requires Usable(config, entry, side)
    ensures QtySum(LadderFills(config, entry, side, 0)) == LadderQty(config, entry, side, 0)
  {
    assert LadderFills(config, entry, side, 0)[..0] == [];
  }

  lemma NextQty(config: DcaConfig, entry: real, side: Side, k: nat)
    requires Usable(config, entry, side) && k < config.maxSafetyOrders
    requires QtySum(LadderFills(config, entry, side, k)) == LadderQty(config, entry, side, k)
    ensures QtySum(LadderFills(config, entry, side, k + 1)) == LadderQty(config, entry, side, k + 1)
  {
    var order := Level(config, entry, side, k);
    var fill := Fill(order.triggerPrice, order.qty, order.orderSizeUsd);
    assert LadderFills(config, entry, side, k + 1) == LadderFills(config, entry, side, k) + [fill];
    hide LadderFills;
    hide Level;
    QtyOfAppend(LadderFills(config, entry, side, k), fill);
  }

  lemma QtyOfAppend(fills: seq<Fill>, fill: Fill)
    ensures QtySum(fills + [fill]) == QtySum(fills) + fill.qty
  {
    assert (fills + [fill])[..|fills|] == fills;
  }

  lemma {:induction false} CostsAddUp(config: DcaConfig, entry: real, side: Side, k: nat)
    requires Usable(config, entry, side) && k <= config.maxSafetyOrders
    ensures CostSum(LadderFills(config, entry, side, k)) == Exposure(config, k)
  {
    if k == 0 {
      BaseCost(config, entry, side);
    } else {
      CostsAddUp(config, entry, side, k - 1);
      CostOfLevel(config, entry, side, k - 1, LadderFills(config, entry, side, k - 1));
    }
  }

  lemma BaseCost(config: DcaConfig, entry: real, side: Side)
    requires Usable(config, entry, side)
    ensures CostSum(LadderFills(config, entry, side, 0)) == config.baseOrderSizeUsd
  {
    var base := Fill(entry, config.baseOrderSizeUsd / entry, config.baseOrderSizeUsd);
    DivPos(config.baseOrderSizeUsd, entry);
    CostOfAppend([], base);
    assert LadderFills(config, entry, side, 0) == [] + [base];
  }

  lemma CostOfLevel(config: DcaConfig, entry: real, side: Side, k: nat, fills: seq<Fill>)
    requires Usable(config, entry, side) && k < config.maxSafetyOrders
    ensures
      var order := Level(config, entry, side, k);
      CostSum(fills + [Fill(order.triggerPrice, order.qty, order.orderSizeUsd)])
      == CostSum(fills) + OrderSize(config, k)
  {
    var order := Level(config, entry, side, k);
    LevelCost(config, entry, side, k);
    CostOfAppend(fills, Fill(order.triggerPrice, order.qty, order.orderSizeUsd));
  }

  lemma CostOfAppend(fills: seq<Fill>, fill: Fill)
    requires fill.price * fill.qty == fill.sizeUsd
    ensures CostSum(fills + [fill]) == CostSum(fills) + fill.sizeUsd
  {
    assert (fills + [fill])[..|fills|] == fills;
  }

  /** A safety order costs its size: trigger price times quantity. */
  lemma LevelCost(config: DcaConfig, entry: real, side: Side, k: nat)
    requires Usable(config, entry, side) && k < config.maxSafetyOrders
    ensures var order := Level(config, entry, side, k);
      order.triggerPrice * order.qty == order.orderSizeUsd == OrderSize(config, k) && order.qty > 0.0
  {
    LadderGrows(config, k);
    OrderCost(k, Deviation(config, k + 1), Trigger(config, entry, side, k), OrderSize(config, k));
    hide OrderAt;
  }

  lemma OrderCost(index: nat, deviationPct: real, triggerPrice: real, orderSizeUsd: real)
    requires triggerPrice > 0.0 && orderSizeUsd > 0.0
    ensures
      var order := OrderAt(index, deviationPct, triggerPrice, orderSizeUsd);
      && order.triggerPrice == triggerPrice && order.orderSizeUsd == orderSizeUsd
      && triggerPrice * order.qty == orderSizeUsd && order.qty > 0.0
  {
    DivPos(orderSizeUsd, triggerPrice);
  }

  lemma OpenIsOnLadder(config: DcaConfig, entry: real, side: Side, slPct: real)
    requires Usable(config, entry, side)
    ensures OnLadder(config, entry, side, slPct, 0,
                     OpenDcaPosition(entry, config.baseOrderSizeUsd / entry, config.baseOrderSizeUsd,
                                     config.takeProfitPct, slPct, side))
  {
    DivPos(config.baseOrderSizeUsd, entry);
  }

  function FillLevel(config: DcaConfig, slPct: real, s: DcaState, order: SafetyOrder): DcaState {
    ApplySafetyOrderFill(s, order.triggerPrice, order.qty, order.orderSizeUsd, config.takeProfitPct, slPct)
  }

  /** Filling the next rung keeps every ladder fact. */
  lemma FillKeepsLadder(config: DcaConfig, entry: real, side: Side, slPct: real, k: nat, s: DcaState)
    requires Usable(config, entry, side) && k < config.maxSafetyOrders
    requires OnLadder(config, entry, side, slPct, k, s)
    ensures OnLadder(config, entry, side, slPct, k + 1, FillLevel(config, slPct, s, Level(config, entry, side, k)))
  {
    var order := Level(config, entry, side, k);
    var fills := LadderFills(config, entry, side, k + 1);
    assert fills == s.fills + [Fill(order.triggerPrice, order.qty, order.orderSizeUsd)];
    QuantitiesAddUp(config, entry, side, k + 1);
    CostsAddUp(config, entry, side, k + 1);
    LadderQtyPositive(config, entry, side, k + 1);
    QuotientTimes(CostSum(fills), QtySum(fills));
  }

  /** Averaging in at a price beyond the average leaves the new average strictly between the two. */
  lemma AverageBetween(avg: real, qty: real, cost: real, price: real, more: real, size: real,
                       next: real, total: real, sum: real, side: Side)
    requires qty > 0.0 && more > 0.0 && Beyond(price, avg, side)
    requires avg * qty == cost && price * more == size && next * total == sum
    requires total == qty + more && sum == cost + size
    ensures Beyond(price, next, side) && Beyond(next, avg, side)
  {
    match side
    case Long =>
      MeanBetween(price, more, size, avg, qty, cost, next, total);
    case Short =>
      MeanBetween(avg, qty, cost, price, more, size, next, total);
  }

  /** The mean of two different values with positive weights lies strictly between them. */
  lemma MeanBetween(lo: real, m: real, x: real, hi: real, n: real, y: real, mean: real, total: real)
    requires lo < hi && m > 0.0 && n > 0.0 && total == m + n
    requires lo * m == x && hi * n == y && mean * total == x + y
    ensures lo < mean < hi
  {
    MulStrict(lo, hi, n);
    MulStrict(lo, hi, m);
    assert lo * total == x + lo * n;
    assert hi * total == hi * m + y;
    CancelStrict(lo, mean, total);
    CancelStrict(mean, hi, total);
  }

  lemma AverageIsQuotient(avg: real, qty: real, cost: real)
    requires qty > 0.0 && avg * qty == cost
    ensures avg == cost / qty
  {
    QuotientTimes(cost, qty);
    assert (avg - cost / qty) * qty == 0.0;
  }

  lemma BaseAverage(config: DcaConfig, entry: real, side: Side, slPct: real, s: DcaState)
    requires Usable(config, entry, side) && OnLadder(config, entry, side, slPct, 0, s)
    ensures s.avgEntryPrice == entry
  {
    DivPos(config.baseOrderSizeUsd, entry);
    AverageIsQuotient(entry, s.totalQty, s.totalCostUsd);
    AverageIsQuotient(s.avgEntryPrice, s.totalQty, s.totalCostUsd);
  }

  /** On every rung the stop lies against the average, the target in favour of it, each by its percent. */
  lemma LevelsBracketAverage(config: DcaConfig, entry: real, side: Side, slPct: real, k: nat, s: DcaState)
    requires Usable(config, entry, side) && k <= config.maxSafetyOrders && OnLadder(config, entry, side, slPct, k, s)
    requires slPct > 0.0
    ensures s.avgEntryPrice > 0.0
    ensures Beyond(s.slPrice, s.avgEntryPrice, side) && Beyond(s.avgEntryPrice, s.tpPrice, side)
    ensures Abs(s.avgEntryPrice - s.slPrice) * 100.0 == s.avgEntryPrice * slPct
    ensures Abs(s.tpPrice - s.avgEntryPrice) * 100.0 == s.avgEntryPrice * config.takeProfitPct
  {
    LadderGrows(config, k);
    if s.avgEntryPrice <= 0.0 { MulMono(s.avgEntryPrice, 0.0, s.totalQty); }
    PercentsAway(s.avgEntryPrice, slPct);
    PercentsAway(s.avgEntryPrice, config.takeProfitPct);
  }

  /** Every pending trigger lies strictly beyond the current average entry. */
  lemma {:induction false} TriggerBeyondAverage(config: DcaConfig, entry: real, side: Side, slPct: real,
                                                k: nat, j: nat, s: DcaState)
    requires Usable(config, entry, side) && k <= j < config.maxSafetyOrders
    requires OnLadder(config, entry, side, slPct, k, s)
    ensures Beyond(Trigger(config, entry, side, j), s.avgEntryPrice, side)
    decreases k
  {
    hide StateAt;
    hide OnLadder;
    hide Trigger;
    if k == 0 {
      BaseAverage(config, entry, side, slPct, s);
      TriggersOrdered(config, entry, side, j, j);
    } else {
      var previous := StateAt(config, entry, side, slPct, k - 1);
      TriggerBeyondAverage(config, entry, side, slPct, k - 1, k - 1, previous);
      AverageAfterFill(config, entry, side, slPct, k - 1, previous, s);
      TriggersOrdered(config, entry, side, k - 1, j);
    }
  }

  /** The state after `k` fills. */
  ghost function StateAt(config: DcaConfig, entry: real, side: Side, slPct: real, k: nat): (s: DcaState)
    requires Usable(config, entry, side) && k <= config.maxSafetyOrders
    ensures OnLadder(config, entry, side, slPct, k, s)
  {
    if k == 0 then
      OpenIsOnLadder(config, entry, side, slPct);
      OpenDcaPosition(entry, config.baseOrderSizeUsd / entry, config.baseOrderSizeUsd,
                      config.takeProfitPct, slPct, side)
    else
      var previous := StateAt(config, entry, side, slPct, k - 1);
      FillKeepsLadder(config, entry, side, slPct, k - 1, previous);
      FillLevel(config, slPct, previous, Level(config, entry, side, k - 1))
  }

  /** The next fill, as quantity and size, and what it adds to the totals. */
  lemma NextFill(config: DcaConfig, entry: real, side: Side, slPct: real, k: nat, s: DcaState, t: DcaState)
    returns (more: real, size: real)
    requires Usable(config, entry, side) && k < config.maxSafetyOrders
    requires OnLadder(config, entry, side, slPct, k, s)
    requires OnLadder(config, entry, side, slPct, k + 1, t)
    ensures more > 0.0 && Trigger(config, entry, side, k) * more == size
    ensures t.totalQty == s.totalQty + more && t.totalCostUsd == s.totalCostUsd + size
  {
    var order := Level(config, entry, side, k);
    LevelCost(config, entry, side, k);
    more, size := order.qty, order.orderSizeUsd;
  }

  lemma AverageAfterFill(config: DcaConfig, entry: real, side: Side, slPct: real, k: nat, s: DcaState, t: DcaState)
    requires Usable(config, entry, side) && k < config.maxSafetyOrders
    requires OnLadder(config, entry, side, slPct, k, s)
    requires OnLadder(config, entry, side, slPct, k + 1, t)
    requires Beyond(Trigger(config, entry, side, k), s.avgEntryPrice, side)
    ensures Beyond(Trigger(config, entry, side, k), t.avgEntryPrice, side)
    ensures Beyond(t.avgEntryPrice, s.avgEntryPrice, side)
  {
    var more, size := NextFill(config, entry, side, slPct, k, s, t);
    AverageBetween(s.avgEntryPrice, s.totalQty, s.totalCostUsd, Trigger(config, entry, side, k), more, size,
                   t.avgEntryPrice, t.totalQty, t.totalCostUsd, side);
  }

  /** Each fill pulls the average strictly between the trigger and the old average. */
  lemma FillImprovesAverage(config: DcaConfig, entry: real, side: Side, slPct: real, k: nat, s: DcaState)
    requires Usable(config, entry, side) && k < config.maxSafetyOrders
    requires OnLadder(config, entry, side, slPct, k, s)
    ensures
      var t := FillLevel(config, slPct, s, Level(config, entry, side, k));
      && Beyond(Trigger(config, entry, side, k), t.avgEntryPrice, side)
      && Beyond(t.avgEntryPrice, s.avgEntryPrice, side)
  {
    FillKeepsLadder(config, entry, side, slPct, k, s);
    TriggerBeyondAverage(config, entry, side, slPct, k, k, s);
    AverageAfterFill(config, entry, side, slPct, k, s, FillLevel(config, slPct, s, Level(config, entry, side, k)));
  }

  /** The target follows the average on long ladders always, on short ones exactly below a 100% take profit. */
  lemma FillMovesTakeProfit(config: DcaConfig, entry: real, side: Side, slPct: real, k: nat, s: DcaState)
    requires Usable(config, entry, side) && k < config.maxSafetyOrders
    requires OnLadder(config, entry, side, slPct, k, s)
    ensures
      var t := FillLevel(config, slPct, s, Level(config, entry, side, k));
      Beyond(t.tpPrice, s.tpPrice, side) <==> (side == Long || config.takeProfitPct < 100.0)
  {
    FillImprovesAverage(config, entry, side, slPct, k, s);
    FillKeepsLadder(config, entry, side, slPct, k, s);
    TargetFollows(FillLevel(config, slPct, s, Level(config, entry, side, k)).avgEntryPrice, s.avgEntryPrice,
                  config.takeProfitPct, side);
  }

  lemma TargetFollows(a: real, b: real, pct: real, side: Side)
    requires pct > 0.0 && Beyond(a, b, side)
    ensures Beyond(InFavour(a, pct, side), InFavour(b, pct, side), side) <==> (side == Long || pct < 100.0)
  {
    var x, y := InFavour(a, pct, side), InFavour(b, pct, side);
    match side
    case Long =>
      var m := 1.0 + pct / 100.0;
      assert m > 0.0;
      ScaledOrder(a, b, m, x, y);
    case Short =>
      var m := 1.0 - pct / 100.0;
      assert m > 0.0 <==> pct < 100.0;
      ScaledOrder(b, a, m, y, x);
  }

  lemma ScaledOrder(a: real, b: real, m: real, x: real, y: real)
    requires a < b && x == a * m && y == b * m
    ensures x < y <==> m > 0.0
  {
    if m > 0.0 {
      MulStrict(a, b, m);
    } else {
      MulAnti(a, b, m);
    }
  }

  // ----- one bar -----

  /** The bar's range touches the trigger. */
  predicate Reached(order: SafetyOrder, c: Candle, side: Side) {
    match side
    case Long => c.low <= order.triggerPrice
    case Short => c.high >= order.triggerPrice
  }

  /** Number of pending orders the source's head-popping loop takes on bar `c`. */
  function ReachedCount(pending: seq<SafetyOrder>, c: Candle, side: Side): (n: nat)
    ensures n <= |pending|
  {
    if pending == [] || !Reached(pending[0], c, side) then 0
    else 1 + ReachedCount(pending[1..], c, side)
  }

  /** The state once that many orders have filled, in ladder order. */
  function FillMany(config: DcaConfig, slPct: real, s: DcaState, orders: seq<SafetyOrder>): DcaState
    decreases |orders|
  {
    if orders == [] then s else FillMany(config, slPct, FillLevel(config, slPct, s, orders[0]), orders[1..])
  }

  /** The loop of the backtest: pop and fill the head while the bar reached it. */
  method FillReached(config: DcaConfig, slPct: real, s: DcaState, orders: seq<SafetyOrder>, c: Candle, side: Side)
    returns (state: DcaState, pending: seq<SafetyOrder>)
    ensures pending == orders[ReachedCount(orders, c, side)..]
    ensures state == FillMany(config, slPct, s, orders[..ReachedCount(orders, c, side)])
  {
    state, pending := s, orders;
    var soFilled := true;
    while soFilled && |pending| > 0
      invariant |pending| <= |orders|
      invariant ReachedCount(orders, c, side)
             == |orders| - |pending| + if soFilled then ReachedCount(pending, c, side) else 0
      invariant pending == orders[|orders| - |pending|..]
      invariant FillMany(config, slPct, s, orders[..|orders| - |pending|]) == state
      decreases |pending| + if soFilled then 1 else 0
    {
      var next := pending[0];
      if Reached(next, c, side) {
        FillOneMore(config, slPct, s, orders, |orders| - |pending|);
        pending := pending[1..];
        state := FillLevel(config, slPct, state, next);
      } else {
        soFilled := false;
      }
    }
  }

  lemma {:induction false} FillOneMore(config: DcaConfig, slPct: real, s: DcaState, orders: seq<SafetyOrder>, n: nat)
    requires n < |orders|
    ensures FillMany(config, slPct, s, orders[..n + 1])
         == FillLevel(config, slPct, FillMany(config, slPct, s, orders[..n]), orders[n])
    decreases n
  {
    if n == 0 {
      assert orders[..1] == [orders[0]] && orders[..0] == [];
      assert orders[..1][1..] == [];
    } else {
      FillOneMore(config, slPct, FillLevel(config, slPct, s, orders[0]), orders[1..], n - 1);
      assert orders[..n + 1][1..] == orders[1..][..n];
      assert orders[..n][1..] == orders[1..][..n - 1];
    }
  }

  /** On a ladder, popping from the head takes exactly the orders the bar reached, wherever they are. */
  lemma {:induction false} PopsExactlyReached(config: DcaConfig, entry: real, side: Side, k: nat, j: nat, c: Candle)
    requires Usable(config, entry, side) && k <= j < config.maxSafetyOrders
    ensures
      var pending := Levels(config, entry, side, config.maxSafetyOrders)[k..];
      j - k < ReachedCount(pending, c, side) <==> Reached(Level(config, entry, side, j), c, side)
    decreases j - k
  {
    var pending := Levels(config, entry, side, config.maxSafetyOrders)[k..];
    TriggersOrdered(config, entry, side, k, j);
    if j > k {
      PopsExactlyReached(config, entry, side, k + 1, j, c);
      assert pending[1..] == Levels(config, entry, side, config.maxSafetyOrders)[k + 1..];
    }
  }

  /** Filling the next `n` pending rungs lands `n` rungs further down the same ladder. */
  lemma {:induction false} FillManyKeepsLadder(config: DcaConfig, entry: real, side: Side, slPct: real,
                                               k: nat, n: nat, s: DcaState)
    requires Usable(config, entry, side) && k + n <= config.maxSafetyOrders
    requires OnLadder(config, entry, side, slPct, k, s)
    ensures OnLadder(config, entry, side, slPct, k + n,
                     FillMany(config, slPct, s, Levels(config, entry, side, config.maxSafetyOrders)[k..k + n]))
    decreases n
  {
    var orders := Levels(config, entry, side, config.maxSafetyOrders)[k..k + n];
    if n > 0 {
      FillKeepsLadder(config, entry, side, slPct, k, s);
      assert orders[0] == Level(config, entry, side, k);
      assert orders[1..] == Levels(config, entry, side, config.maxSafetyOrders)[k + 1..k + n];
      FillManyKeepsLadder(config, entry, side, slPct, k + 1, n - 1, FillLevel(config, slPct, s, orders[0]));
    }
  }

  /** The schedule's worst case is the average of the ladder with every rung filled. */
  lemma WorstCaseIsFullLadder(config: DcaConfig, entry: real, side: Side, slPct: real, worstCase: real)
    requires Usable(config, entry, side)
    requires worstCase * LadderQty(config, entry, side, config.maxSafetyOrders)
          == Exposure(config, config.maxSafetyOrders)
    ensures StateAt(config, entry, side, slPct, config.maxSafetyOrders).avgEntryPrice == worstCase
  {
    hide StateAt;
    var s := StateAt(config, entry, side, slPct, config.maxSafetyOrders);
    AverageIsQuotient(s.avgEntryPrice, s.totalQty, s.totalCostUsd);
    AverageIsQuotient(worstCase, s.totalQty, s.totalCostUsd);
  }
}
