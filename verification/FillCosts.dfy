/** What the ledger books entry fills at, against what the exchange reports for their orders. */
module FillCosts {
  import opened Wrappers
  import opened PositionLedger
  import opened Reconciler

  /** Cost of everything entered, as the positions book it. */
  function BookedCost(ps: seq<Position>): real {
    if ps == [] then 0.0 else BookedCost(ps[..|ps| - 1]) + ps[|ps| - 1].costBasis
  }

  /** The value of an entry order's fills by its counter and average price. */
  function OrderCost(i: Intent): real {
    if i.kind == EntryIntent then i.cumExecQty * i.avgFillPrice.Else(0.0) else 0.0
  }

  function ReportedCost(intents: seq<Intent>): real {
    if intents == [] then 0.0 else ReportedCost(intents[..|intents| - 1]) + OrderCost(intents[|intents| - 1])
  }

  function Gap(w: World): real {
    ReportedCost(w.intents) - BookedCost(w.book.positions)
  }

  lemma {:induction false} BookedUpdate(ps: seq<Position>, id: nat, p: Position)
    requires id < |ps|
    ensures BookedCost(ps[id := p]) == BookedCost(ps) - ps[id].costBasis + p.costBasis
  {
    var n := |ps| - 1;
    if id == n {
      assert ps[id := p][..n] == ps[..n];
    } else {
      BookedUpdate(ps[..n], id, p);
      assert ps[id := p][..n] == ps[..n][id := p];
    }
  }

  lemma {:induction false} ReportedUpdate(intents: seq<Intent>, k: nat, i: Intent)
    requires k < |intents|
    ensures ReportedCost(intents[k := i]) == ReportedCost(intents) - OrderCost(intents[k]) + OrderCost(i)
  {
    hide OrderCost;
    var n := |intents| - 1;
    if k == n {
      assert intents[k := i][..n] == intents[..n];
    } else {
      ReportedUpdate(intents[..n], k, i);
      assert intents[k := i][..n] == intents[..n][k := i];
    }
  }

  /** What a routed fill adds to the booked cost. */
  function Booking(route: Route, delta: Qty, price: real): real {
    if route.Do? && (route.op.OpenOp? || route.op.AddOp?) then delta * price else 0.0
  }

  /** An entry opens or adds, an exit closes, with the fill's own quantity and price. */
  lemma RouteKinds(b: Book, i: Intent, delta: Qty, price: real)
    ensures
      var route := RouteOf(b, i, delta, price);
      && (i.kind == EntryIntent && route.Do? ==> Booking(route, delta, price) == delta * price)
      && (i.kind != EntryIntent ==> Booking(route, delta, price) == 0.0)
      && (route.Do? ==>
            && !route.op.LevelsOp?
            && (route.op.OpenOp? ==> route.op.qty == delta && route.op.price == price)
            && (route.op.AddOp? ==> route.op.qty == delta && route.op.price == price))
  {
  }

  lemma PerformedBooks(b: Book, op: Op)
    requires Inv(b) && Perform(b, op).Success?
    ensures BookedCost(Perform(b, op).value.positions)
         == BookedCost(b.positions) + if op.OpenOp? || op.AddOp? then op.qty * op.price else 0.0
  {
    hide Inv;
    var c := Perform(b, op).value;
    match op
    case OpenOp(_, _, _, _, _, _, _, _) =>
      assert c.positions[..|b.positions|] == b.positions;
    case AddOp(id, _, _) =>
      BookedUpdate(b.positions, id, c.positions[id]);
    case CloseOp(id, _, _) =>
      BookedUpdate(b.positions, id, c.positions[id]);
    case LevelsOp(id, _, _) =>
      BookedUpdate(b.positions, id, c.positions[id]);
  }

  lemma LadderBooksNothing(c: Book, ladders: map<nat, Live>, i: Intent, op: Op, delta: Qty, price: real)
    requires Inv(c)
    ensures BookedCost(AfterFill(c, ladders, i, op, delta, price).book.positions) == BookedCost(c.positions)
  {
    hide Inv;
    if op.AddOp? {
      var t := LadderFill(ladders, op.id, i, delta, price);
      if t.Some? && t.value.exitLevelsChanged {
        var levels := LevelsOp(op.id, Some(Some(t.value.state.slPrice)), Some(Some(t.value.state.tpPrice)));
        hide Perform;
        if Perform(c, levels).Success? { PerformedBooks(c, levels); }
      }
    }
  }

  lemma RoutedBooks(b: Book, ladders: map<nat, Live>, i: Intent, delta: Qty, price: real)
    requires Inv(b)
    ensures
      var route := RouteOf(b, i, delta, price);
      var after := Routed(b, ladders, i, route, delta, price);
      after.Some? ==>
        BookedCost(after.value.book.positions) == BookedCost(b.positions) + Booking(route, delta, price)
  {
    hide Inv;
    hide Perform;
    hide AfterFill;
    hide RouteOf;
    hide BookedCost;
    var route := RouteOf(b, i, delta, price);
    if route.Do? && Perform(b, route.op).Success? {
      PerformKeepsInv(b, route.op);
      PerformedBooks(b, route.op);
      RouteKinds(b, i, delta, price);
      LadderBooksNothing(Perform(b, route.op).value, ladders, i, route.op, delta, price);
    }
  }

  /** The fill of the reading is accepted. */
  predicate Accepted(w: World, k: nat, r: Reading)
    requires Inv(w.book)
  {
    && k < |w.intents| && Pollable(w.intents[k]) && r.cumExecQty > w.intents[k].cumExecQty
    && var i := w.intents[k];
       var delta: Qty := r.cumExecQty - i.cumExecQty;
       var route := RouteOf(w.book, i, delta, FillPrice(i, r));
       route.Do? && Routed(w.book, w.ladders, i, route, delta, FillPrice(i, r)).Some?
  }

  /**
   * A new part of an order is booked at the order's average so far, not at its own price: the books move away
   * from the report by what the average's move makes of the parts before, and stay with it exactly on the first
   * part or while the average stands still.
   */
  lemma CostStepExactly(w: World, k: nat, r: Reading)
    requires Inv(w.book) && Accepted(w, k, r)
    requires w.intents[k].kind == EntryIntent && FillPrice(w.intents[k], r) > 0.0
    ensures
      var i := w.intents[k];
      var average := FillPrice(i, r);
      var next := ReconcileOne(w, k, r);
      && Gap(next) - Gap(w) == i.cumExecQty * (average - i.avgFillPrice.Else(0.0))
      && (Gap(next) == Gap(w) <==> i.cumExecQty == 0.0 || average == i.avgFillPrice.Else(0.0))
  {
    hide Inv;
    hide ReconcileOne;
    hide RouteOf;
    hide Routed;
    hide FillPrice;
    hide Booking;
    hide OrderCost;
    hide Progressed;
    hide Gap;
    var i := w.intents[k];
    var delta: Qty := r.cumExecQty - i.cumExecQty;
    var route := RouteOf(w.book, i, delta, FillPrice(i, r));
    GapStep(w, k, r);
    CostsOf(i, r);
    RouteKinds(w.book, i, delta, FillPrice(i, r));
    PartAtAverage(i.cumExecQty, r.cumExecQty, i.avgFillPrice.Else(0.0), FillPrice(i, r), delta, OrderCost(i),
                  OrderCost(Progressed(i, r)), Booking(route, delta, FillPrice(i, r)));
  }

  lemma GapStep(w: World, k: nat, r: Reading)
    requires Inv(w.book) && Accepted(w, k, r)
    ensures
      var i := w.intents[k];
      var delta: Qty := r.cumExecQty - i.cumExecQty;
      var route := RouteOf(w.book, i, delta, FillPrice(i, r));
      && route.Do?
      && Gap(ReconcileOne(w, k, r)) - Gap(w)
         == OrderCost(Progressed(i, r)) - OrderCost(i) - Booking(route, delta, FillPrice(i, r))
  {
    hide Inv;
    hide ReconcileOne;
    hide Routed;
    hide RouteOf;
    hide FillPrice;
    hide BookedCost;
    hide ReportedCost;
    hide OrderCost;
    hide Progressed;
    hide Booking;
    var i := w.intents[k];
    AcceptedWorld(w, k, r);
    RoutedBooks(w.book, w.ladders, i, r.cumExecQty - i.cumExecQty, FillPrice(i, r));
    ReportedUpdate(w.intents, k, Progressed(i, r));
  }

  lemma AcceptedWorld(w: World, k: nat, r: Reading)
    requires Inv(w.book) && Accepted(w, k, r)
    ensures
      var i := w.intents[k];
      var delta: Qty := r.cumExecQty - i.cumExecQty;
      var route := RouteOf(w.book, i, delta, FillPrice(i, r));
      && route.Do?
      && ReconcileOne(w, k, r).intents == w.intents[k := Progressed(i, r)]
      && ReconcileOne(w, k, r).book == Routed(w.book, w.ladders, i, route, delta, FillPrice(i, r)).value.book
  {
    hide Inv;
    hide Rounding;
    hide RouteOf;
    hide Routed;
    hide Progressed;
  }

  lemma CostsOf(i: Intent, r: Reading)
    requires i.kind == EntryIntent && FillPrice(i, r) > 0.0
    ensures OrderCost(i) == i.cumExecQty * i.avgFillPrice.Else(0.0)
    ensures OrderCost(Progressed(i, r)) == r.cumExecQty * FillPrice(i, r)
  {
    hide FillPrice;
  }

  lemma PartAtAverage(before: real, after: real, was: real, average: real, delta: real, past: real, now: real,
                      booked: real)
    requires delta == after - before && past == before * was && now == after * average && booked == delta * average
    ensures now - past - booked == before * (average - was)
    ensures now - past - booked == 0.0 <==> before == 0.0 || average == was
  {
    assert booked == after * average - before * average;
  }

  /** An accepted entry fill is booked at the average price reported, without one at the order's, or the intent's. */
  lemma BookedAtReportedPrice(w: World, k: nat, r: Reading)
    requires Inv(w.book) && Accepted(w, k, r) && w.intents[k].kind == EntryIntent
    ensures
      var i := w.intents[k];
      var price := if r.avgPrice > 0.0 then r.avgPrice else if r.price > 0.0 then r.price else i.price.Else(0.0);
      BookedCost(ReconcileOne(w, k, r).book.positions) - BookedCost(w.book.positions)
      == (r.cumExecQty - i.cumExecQty) * price
  {
    hide Inv;
    hide ReconcileOne;
    hide RouteOf;
    hide Routed;
    hide BookedCost;
    hide Booking;
    var i := w.intents[k];
    var delta: Qty := r.cumExecQty - i.cumExecQty;
    AcceptedWorld(w, k, r);
    RoutedBooks(w.book, w.ladders, i, delta, FillPrice(i, r));
    RouteKinds(w.book, i, delta, FillPrice(i, r));
  }

  // ----- over whole runs -----

  /** Unless a fill is accepted the ledger stays, and at most the intent moves on. */
  lemma UnacceptedWorld(w: World, k: nat, r: Reading)
    requires Inv(w.book) && k < |w.intents| && !Accepted(w, k, r)
    ensures ReconcileOne(w, k, r).book == w.book
    ensures ReconcileOne(w, k, r).intents in {w.intents, w.intents[k := Progressed(w.intents[k], r)]}
    ensures r.cumExecQty <= w.intents[k].cumExecQty && !Settles(r) ==> ReconcileOne(w, k, r) == w
  {
    hide Inv;
    hide RouteOf;
    hide Progressed;
    hide Rounding;
    hide Perform;
    hide AfterFill;
  }

  lemma OtherCostsNothing(i: Intent, r: Reading)
    requires i.kind != EntryIntent
    ensures OrderCost(i) == 0.0 && OrderCost(Progressed(i, r)) == 0.0
  {
  }

  /** Entry fills reach the ledger in one reading each, or while the average stands; nothing is cancelled off-count. */
  ghost predicate StepSteady(w: World, a: Action)
    requires Inv(w.book)
  {
    a.Poll? && a.k < |w.intents| && Pollable(w.intents[a.k]) && w.intents[a.k].kind == EntryIntent ==>
      var i, r := w.intents[a.k], a.reading;
      if r.cumExecQty > i.cumExecQty then
        && Accepted(w, a.k, r) && FillPrice(i, r) > 0.0
        && (i.cumExecQty == 0.0 || FillPrice(i, r) == i.avgFillPrice.Else(0.0))
      else Settles(r) ==> OrderCost(Progressed(i, r)) == OrderCost(i)
  }

  lemma PollStays(w: World, k: nat, r: Reading)
    requires Inv(w.book) && StepSteady(w, Poll(k, r)) && k < |w.intents| && Pollable(w.intents[k])
    ensures Gap(ReconcileOne(w, k, r)) == Gap(w)
  {
    hide Inv;
    hide RouteOf;
    hide Progressed;
    hide FillPrice;
    var i := w.intents[k];
    if i.kind != EntryIntent { OtherCostsNothing(i, r); }
    if Accepted(w, k, r) {
      GapStep(w, k, r);
      if i.kind == EntryIntent {
        CostStepExactly(w, k, r);
      } else {
        var delta: Qty := r.cumExecQty - i.cumExecQty;
        RouteKinds(w.book, i, delta, FillPrice(i, r));
      }
    } else {
      UnacceptedWorld(w, k, r);
      ReportedUpdate(w.intents, k, Progressed(i, r));
    }
    hide Accepted;
    hide ReconcileOne;
    hide Booking;
    hide BookedCost;
    hide ReportedCost;
    hide OrderCost;
  }

  lemma StepStays(w: World, a: Action)
    requires Inv(w.book) && StepSteady(w, a)
    ensures Gap(Apply(w, a)) == Gap(w)
  {
    hide Inv;
    hide BookedCost;
    match a
    case NewIntent(i) =>
      var x := i.(cumExecQty := 0.0, state := Placed);
      assert (w.intents + [x])[..|w.intents|] == w.intents;
      assert OrderCost(x) == 0.0;
    case Poll(k, r) =>
      hide StepSteady;
      hide ReportedCost;
      if k < |w.intents| && Pollable(w.intents[k]) { PollStays(w, k, r); }
  }

  ghost predicate Steady(actions: seq<Action>) {
    forall n :: 0 <= n < |actions| ==> StepSteady(Trace(actions[..n]), actions[n])
  }

  /** Over every such run the ledger's cost is the exchange's: every entry fill at its counter and average price. */
  lemma {:induction false} CostsAreReported(actions: seq<Action>)
    requires Steady(actions)
    ensures BookedCost(Trace(actions).book.positions) == ReportedCost(Trace(actions).intents)
  {
    hide Inv;
    hide StepSteady;
    hide Apply;
    hide Gap;
    if actions == [] {
      assert Trace([]) == EMPTY_WORLD;
    } else {
      var before, a := actions[..|actions| - 1], actions[|actions| - 1];
      assert forall n :: 0 <= n <= |before| ==> before[..n] == actions[..n];
      assert forall n :: 0 <= n < |before| ==> before[n] == actions[n];
      CostsAreReported(before);
      StepStays(Trace(before), a);
      assert Trace(actions) == Apply(Trace(before), a);
      GapIsDifference(Trace(before));
      GapIsDifference(Trace(actions));
    }
  }

  lemma GapIsDifference(w: World)
    ensures Gap(w) == ReportedCost(w.intents) - BookedCost(w.book.positions)
  {
  }

  const ONE_AT_100 := Reading(PartlyFilled, 1.0, 100.0, 100.0)

  const TWO_AT_150 := Reading(FullyFilled, 2.0, 150.0, 100.0)

  /** One unit at 100 and another at 200, which makes the average 150: 300 is paid, and 250 booked. */
  lemma TwoPricesExample()
    ensures
      var w := Trace([NewIntent(BUY), Poll(0, ONE_AT_100), Poll(0, TWO_AT_150)]);
      ReportedCost(w.intents) == 300.0 && BookedCost(w.book.positions) == 250.0
  {
    hide Trace;
    hide Inv;
    hide ReconcileOne;
    hide OneUnitIn;
    var two := [NewIntent(BUY), Poll(0, ONE_AT_100)];
    AfterOneUnit();
    TraceStep(two, Poll(0, TWO_AT_150));
    assert two + [Poll(0, TWO_AT_150)] == [NewIntent(BUY), Poll(0, ONE_AT_100), Poll(0, TWO_AT_150)];
    SecondUnit(Trace(two));
  }

  lemma AfterOneUnit()
    ensures OneUnitIn(Trace([NewIntent(BUY), Poll(0, ONE_AT_100)]))
  {
    NoActions();
    hide Trace;
    hide Inv;
    hide ReconcileOne;
    hide OneUnitIn;
    TraceStep([], NewIntent(BUY));
    TraceStep([NewIntent(BUY)], Poll(0, ONE_AT_100));
    assert [] + [NewIntent(BUY)] == [NewIntent(BUY)];
    assert [NewIntent(BUY)] + [Poll(0, ONE_AT_100)] == [NewIntent(BUY), Poll(0, ONE_AT_100)];
    OneUnit(Trace([NewIntent(BUY)]));
  }

  /** One unit of the order is in, at 100. */
  ghost predicate OneUnitIn(w: World) {
    && w.intents == [BUY.(cumExecQty := 1.0, state := PartiallyFilled, avgFillPrice := Some(100.0))]
    && |w.book.positions| == 1 && w.book.positions[0].open && w.book.positions[0].costBasis == 100.0
    && w.book.positions[0].runId == "run" && w.book.positions[0].symbol == "BTCUSDT" && w.ladders == map[]
  }

  lemma OneUnit(w: World)
    requires w == EMPTY_WORLD.(intents := [BUY]) && Inv(w.book)
    ensures OneUnitIn(ReconcileOne(w, 0, ONE_AT_100))
  {
    assert Active([], "run", "BTCUSDT") == None;
  }

  lemma SecondUnit(w: World)
    requires Inv(w.book) && OneUnitIn(w)
    ensures
      var next := ReconcileOne(w, 0, TWO_AT_150);
      ReportedCost(next.intents) == 300.0 && BookedCost(next.book.positions) == 250.0
  {
    hide Inv;
    assert Active(w.book.positions, "run", "BTCUSDT") == Some(0);
    var next := ReconcileOne(w, 0, TWO_AT_150);
    assert |next.intents| == 1 && next.intents[..0] == [] && OrderCost(next.intents[0]) == 300.0;
    assert |next.book.positions| == 1 && next.book.positions[..0] == [];
    assert next.book.positions[0].costBasis == 250.0;
  }
}
