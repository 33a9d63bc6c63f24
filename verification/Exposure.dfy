/** Which side the reconciled positions are on, and what that makes of the orders behind them. */
module Exposure {
  import opened Wrappers
  import opened Market
  import opened PositionLedger
  import opened Reconciler

  // ----- sides -----

  /** An accepted operation keeps every row's side, and adds at most a row: the one an open asked for. */
  lemma PerformKeepsSides(b: Book, op: Op)
    requires Inv(b) && Perform(b, op).Success?
    ensures
      var ps, qs := b.positions, Perform(b, op).value.positions;
      && |qs| == |ps| + (if op.OpenOp? then 1 else 0)
      && (forall id :: 0 <= id < |ps| ==> qs[id].side == ps[id].side)
      && (op.OpenOp? ==> qs[|ps|].side == op.side)
  {
    hide Inv;
  }

  /** The fill opens position `id`. */
  predicate Opens(w: World, a: Action, id: nat)
    requires Inv(w.book)
  {
    && a.Poll? && a.k < |w.intents| && w.intents[a.k].kind == EntryIntent
    && |w.book.positions| == id && |Apply(w, a).book.positions| == id + 1
  }

  lemma RoutedKeepsSides(b: Book, ladders: map<nat, Live>, i: Intent, delta: Qty, price: real)
    requires Inv(b)
    ensures
      var after := Routed(b, ladders, i, RouteOf(b, i, delta, price), delta, price);
      after.Some? ==>
        var ps, qs := b.positions, after.value.book.positions;
        && |ps| <= |qs| <= |ps| + 1
        && (forall id :: 0 <= id < |ps| ==> qs[id].side == ps[id].side)
        && (|qs| > |ps| ==> i.kind == EntryIntent && (qs[|ps|].side == Long <==> i.side == Buy))
  {
    hide Inv;
    hide Perform;
    var route := RouteOf(b, i, delta, price);
    if route.Do? && Perform(b, route.op).Success? {
      PerformKeepsInv(b, route.op);
      PerformKeepsSides(b, route.op);
      AfterKeepsSides(Perform(b, route.op).value, ladders, i, route.op, delta, price);
    }
  }

  lemma AfterKeepsSides(c: Book, ladders: map<nat, Live>, i: Intent, op: Op, delta: Qty, price: real)
    requires Inv(c)
    ensures
      var qs := AfterFill(c, ladders, i, op, delta, price).book.positions;
      && |qs| == |c.positions|
      && forall id :: 0 <= id < |qs| ==>
           qs[id].side == c.positions[id].side && qs[id].currentQty == c.positions[id].currentQty
  {
    hide Inv;
  }

  lemma ApplyKeepsSides(w: World, a: Action)
    requires Inv(w.book)
    ensures
      var ps, qs := w.book.positions, Apply(w, a).book.positions;
      && |ps| <= |qs| <= |ps| + 1
      && (forall id :: 0 <= id < |ps| ==> qs[id].side == ps[id].side)
      && (|qs| > |ps| ==> Opens(w, a, |ps|) && (qs[|ps|].side == Long <==> w.intents[a.k].side == Buy))
  {
    hide Inv;
    hide Routed;
    hide RouteOf;
    hide Rounding;
    if a.Poll? && a.k < |w.intents| && Pollable(w.intents[a.k]) && a.reading.cumExecQty > w.intents[a.k].cumExecQty {
      var i := w.intents[a.k];
      RoutedKeepsSides(w.book, w.ladders, i, a.reading.cumExecQty - i.cumExecQty, FillPrice(i, a.reading));
    }
  }

  /** A position opened without a ladder is the order's: its bot, run and symbol, its levels, and the fill. */
  lemma OpensAsOrdered(w: World, a: Action, id: nat)
    requires Inv(w.book) && Opens(w, a, id) && !w.intents[a.k].dca
    ensures
      var i, p := w.intents[a.k], Apply(w, a).book.positions[id];
      && p.botId == i.botId && p.runId == i.runId && p.symbol == i.symbol && p.open
      && p.sl == i.sl && p.tp == i.tp && p.realisedPnl == 0.0
      && p.currentQty == p.entryQty == a.reading.cumExecQty - i.cumExecQty && i.cumExecQty == 0.0
      && p.avgEntryPrice == FillPrice(i, a.reading)
  {
    hide Inv;
    hide FillPrice;
    hide Rounding;
  }

  /** Some action of the run opened the position, for an entry order that bought exactly if the position is long. */
  ghost predicate SideOfOpener(actions: seq<Action>, id: nat, side: Side) {
    exists n :: 0 <= n < |actions| && OpenedFor(Trace(actions[..n]), actions[n], id, side)
  }

  predicate OpenedFor(w: World, a: Action, id: nat, side: Side)
    requires Inv(w.book)
  {
    Opens(w, a, id) && (side == Long <==> w.intents[a.k].side == Buy)
  }

  /** Over every run, each position is on the side of the entry order that opened it, whatever it was since sent. */
  lemma {:induction false} PositionsTakeTheirOrdersSide(actions: seq<Action>, id: nat)
    requires id < |Trace(actions).book.positions|
    ensures SideOfOpener(actions, id, Trace(actions).book.positions[id].side)
  {
    hide Inv;
    hide Apply;
    hide Opens;
    if actions == [] {
      NoActions();
    } else {
      var before, a := actions[..|actions| - 1], actions[|actions| - 1];
      assert Trace(actions) == Apply(Trace(before), a);
      hide Trace;
      ApplyKeepsSides(Trace(before), a);
      if id < |Trace(before).book.positions| {
        PositionsTakeTheirOrdersSide(before, id);
        var n :| 0 <= n < |before|
          && OpenedFor(Trace(before[..n]), before[n], id, Trace(before).book.positions[id].side);
        assert before[..n] == actions[..n] && before[n] == actions[n];
      } else {
        assert OpenedFor(Trace(actions[..|before|]), a, id, Trace(actions).book.positions[id].side);
      }
    }
  }

  // ----- exposure -----

  /** Quantity of a row, negative for a short. */
  function Signed(p: Position): real {
    if p.side == Long then p.currentQty else -p.currentQty
  }

  function Exposure(ps: seq<Position>): real {
    if ps == [] then 0.0 else Exposure(ps[..|ps| - 1]) + Signed(ps[|ps| - 1])
  }

  /** What a quantity filled for the order is worth: bought or sold. */
  function Bought(i: Intent, qty: real): real {
    if i.kind == OtherIntent then 0.0 else if i.side == Buy then qty else -qty
  }

  function NetBought(intents: seq<Intent>): real {
    if intents == [] then 0.0
    else NetBought(intents[..|intents| - 1]) + Bought(intents[|intents| - 1], intents[|intents| - 1].cumExecQty)
  }

  /** The order's side is the one the routed operation has on its position: entries add to it, exits take away. */
  predicate Matches(b: Book, i: Intent, route: Route) {
    && (route.Do? && route.op.AddOp? ==> HasSide(b, route.op.id, if i.side == Buy then Long else Short))
    && (route.Do? && route.op.CloseOp? ==> HasSide(b, route.op.id, if i.side == Sell then Long else Short))
  }

  predicate HasSide(b: Book, id: nat, side: Side) {
    id < |b.positions| && b.positions[id].side == side
  }

  lemma {:induction false} ExposureUpdate(ps: seq<Position>, id: nat, p: Position)
    requires id < |ps|
    ensures Exposure(ps[id := p]) == Exposure(ps) - Signed(ps[id]) + Signed(p)
  {
    hide Signed;
    var n := |ps| - 1;
    if id == n {
      assert ps[id := p][..n] == ps[..n];
    } else {
      ExposureUpdate(ps[..n], id, p);
      assert ps[id := p][..n] == ps[..n][id := p];
    }
  }

  lemma {:induction false} SameExposure(ps: seq<Position>, qs: seq<Position>)
    requires |ps| == |qs|
    requires forall id :: 0 <= id < |ps| ==> qs[id].side == ps[id].side && qs[id].currentQty == ps[id].currentQty
    ensures Exposure(qs) == Exposure(ps)
  {
    if ps != [] {
      SameExposure(ps[..|ps| - 1], qs[..|qs| - 1]);
    }
  }

  /** The quantity of the closed row that a full close rounds away, signed. */
  function SignedRounding(b: Book, route: Route, delta: Qty): real {
    if FullClose(b, route, delta) then
      if b.positions[route.op.id].side == Long then Rounding(b, route, delta) else -Rounding(b, route, delta)
    else 0.0
  }

  lemma AddMovesExposure(b: Book, id: nat, delta: Qty, price: real)
    requires Inv(b) && id < |b.positions| && Perform(b, AddOp(id, delta, price)).Success?
    ensures Exposure(Perform(b, AddOp(id, delta, price)).value.positions)
         == Exposure(b.positions) + if b.positions[id].side == Long then delta else 0.0 - delta
  {
    hide Inv;
    ExposureUpdate(b.positions, id, Perform(b, AddOp(id, delta, price)).value.positions[id]);
    hide Exposure;
  }

  lemma CloseMovesExposure(b: Book, id: nat, delta: Qty, price: real)
    requires Inv(b) && id < |b.positions| && Perform(b, CloseOp(id, delta, price)).Success?
    ensures Exposure(Perform(b, CloseOp(id, delta, price)).value.positions)
         == Exposure(b.positions) + SignedRounding(b, Do(CloseOp(id, delta, price)), delta)
            + if b.positions[id].side == Long then 0.0 - delta else delta
  {
    hide Inv;
    ExposureUpdate(b.positions, id, Perform(b, CloseOp(id, delta, price)).value.positions[id]);
    hide Exposure;
  }

  /** An accepted operation moves the exposure by what the order bought exactly if the order's side matches. */
  lemma PerformedMovesExposure(b: Book, i: Intent, delta: Qty, price: real)
    requires Inv(b) && RouteOf(b, i, delta, price).Do?
    requires Perform(b, RouteOf(b, i, delta, price).op).Success?
    ensures
      var route := RouteOf(b, i, delta, price);
      Exposure(Perform(b, route.op).value.positions)
      == Exposure(b.positions) + SignedRounding(b, route, delta)
         + if Matches(b, i, route) then Bought(i, delta) else -Bought(i, delta)
  {
    hide Inv;
    var op := RouteOf(b, i, delta, price).op;
    match op
    case OpenOp(_, _, _, _, _, _, _, _) =>
      assert Perform(b, op).value.positions[..|b.positions|] == b.positions;
    case AddOp(id, _, _) =>
      AddMovesExposure(b, id, delta, price);
      hide Perform;
      hide Exposure;
    case CloseOp(id, _, _) =>
      CloseMovesExposure(b, id, delta, price);
      hide Perform;
      hide Exposure;
      hide SignedRounding;
  }

  lemma RoutedMovesExposure(b: Book, ladders: map<nat, Live>, i: Intent, delta: Qty, price: real)
    requires Inv(b) && RouteOf(b, i, delta, price).Do?
    requires Routed(b, ladders, i, RouteOf(b, i, delta, price), delta, price).Some?
    ensures
      var route := RouteOf(b, i, delta, price);
      Exposure(Routed(b, ladders, i, route, delta, price).value.book.positions)
      == Exposure(b.positions) + SignedRounding(b, route, delta)
         + if Matches(b, i, route) then Bought(i, delta) else -Bought(i, delta)
  {
    hide Inv;
    hide Perform;
    hide RouteOf;
    hide AfterFill;
    hide Exposure;
    hide Matches;
    var route := RouteOf(b, i, delta, price);
    var c := Perform(b, route.op).value;
    PerformKeepsInv(b, route.op);
    PerformedMovesExposure(b, i, delta, price);
    AfterKeepsSides(c, ladders, i, route.op, delta, price);
    SameExposure(c.positions, AfterFill(c, ladders, i, route.op, delta, price).book.positions);
  }

  /** The fill of this poll is accepted, by an operation on the ledger. */
  predicate Fills(w: World, a: Action)
    requires Inv(w.book)
  {
    && a.Poll? && a.k < |w.intents| && Pollable(w.intents[a.k]) && a.reading.cumExecQty > w.intents[a.k].cumExecQty
    && var i := w.intents[a.k];
       var delta: Qty := a.reading.cumExecQty - i.cumExecQty;
       var route := RouteOf(w.book, i, delta, FillPrice(i, a.reading));
       route.Do? && Routed(w.book, w.ladders, i, route, delta, FillPrice(i, a.reading)).Some?
  }

  function RouteTaken(w: World, a: Action): Route
    requires Inv(w.book) && Fills(w, a)
  {
    var i := w.intents[a.k];
    RouteOf(w.book, i, a.reading.cumExecQty - i.cumExecQty, FillPrice(i, a.reading))
  }

  function Imbalance(w: World): real {
    Exposure(w.book.positions) - NetBought(w.intents)
  }

  lemma {:induction false} NetBoughtUpdate(intents: seq<Intent>, k: nat, i: Intent)
    requires k < |intents|
    ensures NetBought(intents[k := i])
         == NetBought(intents) - Bought(intents[k], intents[k].cumExecQty) + Bought(i, i.cumExecQty)
  {
    hide Bought;
    var n := |intents| - 1;
    if k == n {
      assert intents[k := i][..n] == intents[..n];
    } else {
      NetBoughtUpdate(intents[..n], k, i);
      assert intents[k := i][..n] == intents[..n][k := i];
    }
  }

  /**
   * One accepted fill keeps the exposure in step with what the orders bought, up to the rounding of a full close,
   * exactly if the order's side matches; otherwise it puts them apart by twice the fill.
   */
  lemma FillBalancesExactly(w: World, a: Action)
    requires Inv(w.book) && Fills(w, a)
    ensures
      var i := w.intents[a.k];
      var delta: Qty := a.reading.cumExecQty - i.cumExecQty;
      var route := RouteTaken(w, a);
      var moved := Imbalance(Apply(w, a)) - Imbalance(w) - SignedRounding(w.book, route, delta);
      && (moved == 0.0 <==> Matches(w.book, i, route))
      && (moved != 0.0 ==> moved == -2.0 * Bought(i, delta))
  {
    hide Inv;
    hide RouteOf;
    hide Routed;
    hide Matches;
    hide Exposure;
    hide Rounding;
    var i := w.intents[a.k];
    var delta: Qty := a.reading.cumExecQty - i.cumExecQty;
    RoutedMovesExposure(w.book, w.ladders, i, delta, FillPrice(i, a.reading));
    NetBoughtUpdate(w.intents, a.k, Progressed(i, a.reading));
    hide NetBought;
    OnlyEntriesAndExits(w.book, i, delta, FillPrice(i, a.reading));
  }

  lemma OnlyEntriesAndExits(b: Book, i: Intent, delta: Qty, price: real)
    ensures RouteOf(b, i, delta, price).Do? ==> i.kind != OtherIntent
  {
  }

  // ----- over whole runs -----

  /** Fills are refused, or routed to a position their order matches; cancelling takes none back. */
  ghost predicate StepMatches(w: World, a: Action)
    requires Inv(w.book)
  {
    a.Poll? && a.k < |w.intents| && Pollable(w.intents[a.k]) && w.intents[a.k].kind != OtherIntent ==>
      if a.reading.cumExecQty > w.intents[a.k].cumExecQty then
        if Fills(w, a) then Matches(w.book, w.intents[a.k], RouteTaken(w, a)) else Apply(w, a) == w
      else Settles(a.reading) ==> a.reading.cumExecQty == w.intents[a.k].cumExecQty
  }

  ghost predicate Matched(actions: seq<Action>) {
    forall n :: 0 <= n < |actions| ==> StepMatches(Trace(actions[..n]), actions[n])
  }

  predicate WithinCloses(w: World, x: real) {
    -(w.fullCloses as real) * TOLERANCE <= x <= w.fullCloses as real * TOLERANCE
  }

  lemma StepBalances(w: World, a: Action)
    requires Inv(w.book) && StepMatches(w, a) && WithinCloses(w, Imbalance(w))
    ensures WithinCloses(Apply(w, a), Imbalance(Apply(w, a)))
  {
    hide Inv;
    hide RouteOf;
    hide Routed;
    hide Exposure;
    hide Matches;
    match a
    case NewIntent(i) =>
      var x := i.(cumExecQty := 0.0, state := Placed);
      assert (w.intents + [x])[..|w.intents|] == w.intents;
    case Poll(k, r) =>
      if Fills(w, a) && w.intents[k].kind != OtherIntent {
        FillBalancesExactly(w, a);
        CloseIsCounted(w, a);
      } else if k < |w.intents| && Pollable(w.intents[k]) {
        UnfilledStays(w, a);
      }
  }

  /** A full close is counted, and rounds by less than the tolerance. */
  lemma CloseIsCounted(w: World, a: Action)
    requires Inv(w.book) && Fills(w, a)
    ensures
      var i := w.intents[a.k];
      var delta: Qty := a.reading.cumExecQty - i.cumExecQty;
      var full := FullClose(w.book, RouteTaken(w, a), delta);
      && Apply(w, a).fullCloses == w.fullCloses + (if full then 1 else 0)
      && -TOLERANCE < SignedRounding(w.book, RouteTaken(w, a), delta) < TOLERANCE
      && (!full ==> SignedRounding(w.book, RouteTaken(w, a), delta) == 0.0)
  {
    hide Inv;
    hide RouteOf;
    hide Routed;
  }

  lemma UnfilledStays(w: World, a: Action)
    requires Inv(w.book) && a.Poll? && a.k < |w.intents| && Pollable(w.intents[a.k])
    requires StepMatches(w, a) && !(Fills(w, a) && w.intents[a.k].kind != OtherIntent)
    ensures Imbalance(Apply(w, a)) == Imbalance(w) && Apply(w, a).fullCloses == w.fullCloses
  {
    hide Inv;
    hide Perform;
    hide AfterFill;
    hide Exposure;
    var i := w.intents[a.k];
    NetBoughtUpdate(w.intents, a.k, Progressed(i, a.reading));
    hide NetBought;
    hide EntryRoute;
    hide ExitRoute;
  }

  /**
   * Over every such run the signed exposure of all positions is what the orders bought less what they sold, within
   * one tolerance per full close.
   */
  lemma {:induction false} ExposureIsNetBought(actions: seq<Action>)
    requires Matched(actions)
    ensures WithinCloses(Trace(actions), Exposure(Trace(actions).book.positions) - NetBought(Trace(actions).intents))
  {
    hide Inv;
    hide Apply;
    hide StepMatches;
    if actions == [] {
      NoActions();
    } else {
      var before, a := actions[..|actions| - 1], actions[|actions| - 1];
      assert forall n :: 0 <= n <= |before| ==> before[..n] == actions[..n];
      assert forall n :: 0 <= n < |before| ==> before[n] == actions[n];
      ExposureIsNetBought(before);
      StepBalances(Trace(before), a);
      assert Trace(actions) == Apply(Trace(before), a);
    }
  }

  const ONE := Reading(FullyFilled, 1.0, 100.0, 100.0)

  const SELL := BUY.(side := Sell)

  /** An entry that sells while its run is long is added to the long: nothing net is bought, and two are held. */
  lemma OppositeEntryExample()
    ensures
      var w := Trace([NewIntent(BUY), NewIntent(SELL), Poll(0, ONE), Poll(1, ONE)]);
      NetBought(w.intents) == 0.0 && Exposure(w.book.positions) == 2.0
  {
    hide Trace;
    hide Inv;
    hide ReconcileOne;
    hide OneHeld;
    var three := [NewIntent(BUY), NewIntent(SELL), Poll(0, ONE)];
    AfterBuy();
    TraceStep(three, Poll(1, ONE));
    assert three + [Poll(1, ONE)] == [NewIntent(BUY), NewIntent(SELL), Poll(0, ONE), Poll(1, ONE)];
    SellAdds(Trace(three));
  }

  /** The buy has opened a long of one; the sell is still to fill. */
  ghost predicate OneHeld(w: World) {
    && w.intents == [BUY.(cumExecQty := 1.0, state := Filled, avgFillPrice := Some(100.0)), SELL]
    && |w.book.positions| == 1 && w.book.positions[0].open && w.book.positions[0].side == Long
    && w.book.positions[0].currentQty == 1.0
    && w.book.positions[0].runId == "run" && w.book.positions[0].symbol == "BTCUSDT" && w.ladders == map[]
  }

  lemma AfterBuy()
    ensures OneHeld(Trace([NewIntent(BUY), NewIntent(SELL), Poll(0, ONE)]))
  {
    NoActions();
    hide Trace;
    hide Inv;
    hide ReconcileOne;
    hide OneHeld;
    TraceStep([], NewIntent(BUY));
    TraceStep([NewIntent(BUY)], NewIntent(SELL));
    TraceStep([NewIntent(BUY), NewIntent(SELL)], Poll(0, ONE));
    assert [] + [NewIntent(BUY)] == [NewIntent(BUY)];
    assert [NewIntent(BUY)] + [NewIntent(SELL)] == [NewIntent(BUY), NewIntent(SELL)];
    assert [NewIntent(BUY), NewIntent(SELL)] + [Poll(0, ONE)] == [NewIntent(BUY), NewIntent(SELL), Poll(0, ONE)];
    BuyOpens(Trace([NewIntent(BUY), NewIntent(SELL)]));
  }

  lemma BuyOpens(w: World)
    requires w == EMPTY_WORLD.(intents := [BUY, SELL]) && Inv(w.book)
    ensures OneHeld(ReconcileOne(w, 0, ONE))
  {
    assert Active([], "run", "BTCUSDT") == None;
  }

  lemma SellAdds(w: World)
    requires Inv(w.book) && OneHeld(w)
    ensures
      var next := ReconcileOne(w, 1, ONE);
      NetBought(next.intents) == 0.0 && Exposure(next.book.positions) == 2.0
  {
    hide Inv;
    assert Active(w.book.positions, "run", "BTCUSDT") == Some(0);
    var next := ReconcileOne(w, 1, ONE);
    assert |next.intents| == 2 && next.intents[..1] == [next.intents[0]] && next.intents[..1][..0] == [];
    assert NetBought(next.intents[..1]) == 1.0;
    assert |next.book.positions| == 1 && next.book.positions[..0] == [];
  }
}
