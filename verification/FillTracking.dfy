/** How far the ladder kept with a position, and the prices its fills are booked at, follow the orders behind them. */
module FillTracking {
  import opened Wrappers
  import opened Market
  import opened Reals
  import opened PositionLedger
  import opened Reconciler
  import DcaPlanning
  import LiveLadder

  // ----- the ladder beside the position -----

  /** The position has the ladder's side and levels, and has entered what the ladder has, at the same cost, or more. */
  ghost predicate Tracked(p: Position, l: Live) {
    && LiveLadder.LiveOk(l) && (l.phase == LiveLadder.LadderActive || l.phase == LiveLadder.Completed)
    && p.side == l.side && p.sl == Some(l.slPrice) && p.tp == Some(l.tpPrice)
    && p.entryQty >= l.totalQty
    && (p.entryQty == l.totalQty ==> p.costBasis == l.totalCostUsd)
    && (l.phase == LiveLadder.LadderActive ==> p.currentQty > 0.0)
  }

  /** The worker hands a ladder to a new order as `initializeDcaLadder` makes it, for the side the order takes. */
  ghost predicate FreshLadder(i: Intent) {
    i.ladder.Some? ==>
      && LiveLadder.LiveOk(i.ladder.value) && i.ladder.value.phase == LiveLadder.AwaitingBase
      && (i.ladder.value.side == Long <==> i.side == Buy)
  }

  ghost predicate AllTracked(ps: seq<Position>, ladders: map<nat, Live>) {
    forall id :: id in ladders ==> id < |ps| && Tracked(ps[id], ladders[id])
  }

  ghost predicate LaddersOk(w: World) {
    && AllTracked(w.book.positions, w.ladders)
    && forall k :: 0 <= k < |w.intents| ==> FreshLadder(w.intents[k])
  }

  lemma BaseIsTracked(i: Intent, delta: Qty, price: real, p: Position)
    requires FreshLadder(i) && BaseLadder(i, delta, price).Success? && BaseLadder(i, delta, price).value.Some?
    requires p.entryQty == delta && p.costBasis == delta * price && (p.side == Long <==> i.side == Buy)
    requires p.currentQty == delta
    requires
      var l := BaseLadder(i, delta, price).value.value;
      p.sl == Some(l.slPrice) && p.tp == Some(l.tpPrice)
    ensures Tracked(p, BaseLadder(i, delta, price).value.value)
  {
    LiveLadder.BaseIsPriced(i.ladder.value, price, delta);
    hide LiveLadder.LiveOk;
    hide DcaPlanning.Against;
    hide DcaPlanning.InFavour;
  }

  lemma AddIsTracked(p: Position, l: Live, delta: Qty, price: real, q: Position)
    requires Tracked(p, l) && l.nextSoIndex >= 0
    requires q.entryQty == p.entryQty + delta && q.costBasis == p.costBasis + delta * price && q.side == p.side
    requires q.currentQty == p.currentQty + delta
    requires
      var t := LiveLadder.ApplySafetyFill(l, l.nextSoIndex, price, delta).state;
      q.sl == Some(t.slPrice) && q.tp == Some(t.tpPrice)
    ensures l.phase == LiveLadder.LadderActive
    ensures
      var t := LiveLadder.ApplySafetyFill(l, l.nextSoIndex, price, delta);
      && t.exitLevelsChanged && Tracked(q, t.state)
      && t.state.safetyOrdersFilled == l.safetyOrdersFilled + 1
      && (q.entryQty == t.state.totalQty <==> p.entryQty == l.totalQty)
  {
    LiveLadder.HandleKeepsOkExactly(l, LiveLadder.SafetyFill(l.nextSoIndex, price, delta));
    hide DcaPlanning.AvgEntry;
    hide DcaPlanning.Against;
    hide DcaPlanning.InFavour;
  }

  lemma OtherAddIsTracked(p: Position, l: Live, delta: Qty, price: real, q: Position)
    requires Tracked(p, l) && q.side == p.side && q.entryQty == p.entryQty + delta && q.sl == p.sl && q.tp == p.tp
    requires q.currentQty == p.currentQty + delta
    ensures Tracked(q, l) && q.entryQty > l.totalQty
  {
    hide LiveLadder.LiveOk;
  }

  lemma CloseIsTracked(p: Position, l: Live, q: Position)
    requires Tracked(p, l) && q.side == p.side && q.sl == p.sl && q.tp == p.tp
    requires q.entryQty == p.entryQty && q.costBasis == p.costBasis
    ensures q.currentQty > 0.0 ==> Tracked(q, l)
    ensures l.phase != LiveLadder.LadderActive ==> Tracked(q, l)
    ensures Tracked(q, LiveLadder.CompleteLadder(l))
    ensures LiveLadder.CompleteLadder(l).totalQty == l.totalQty
  {
  }

  /** The fill adds to this position past its ladder: the intent is no DCA order, or the ladder is full. */
  predicate Bypasses(ladders: map<nat, Live>, i: Intent, route: Route, id: nat) {
    && route.Do? && route.op.AddOp? && route.op.id == id
    && id in ladders && !(i.dca && ladders[id].nextSoIndex >= 0)
  }

  /** A position has entered exactly what its ladder has. */
  predicate Agrees(ps: seq<Position>, ladders: map<nat, Live>, id: nat) {
    id in ladders && id < |ps| && ps[id].entryQty == ladders[id].totalQty
  }

  ghost predicate Followed(ps: seq<Position>, ladders: map<nat, Live>, i: Intent, route: Route,
                           after: Ledgers) {
    && AllTracked(after.book.positions, after.ladders)
    && forall id :: id in after.ladders ==>
         (Agrees(after.book.positions, after.ladders, id)
          <==> (id in ladders ==> Agrees(ps, ladders, id)) && !Bypasses(ladders, i, route, id))
  }

  lemma OpenFollows(b: Book, ladders: map<nat, Live>, i: Intent, delta: Qty, price: real)
    requires Inv(b) && AllTracked(b.positions, ladders) && FreshLadder(i)
    requires EntryRoute(b, i, delta, price).Do? && EntryRoute(b, i, delta, price).op.OpenOp?
    requires Routed(b, ladders, i, EntryRoute(b, i, delta, price), delta, price).Some?
    ensures
      var route := EntryRoute(b, i, delta, price);
      Followed(b.positions, ladders, i, route, Routed(b, ladders, i, route, delta, price).value)
  {
    hide Inv;
    hide Tracked;
    var route := EntryRoute(b, i, delta, price);
    var Ledgers(c, moved) := Routed(b, ladders, i, route, delta, price).value;
    var base, n := BaseLadder(i, delta, price), |b.positions|;
    assert |c.positions| == n + 1 && forall id :: 0 <= id < n ==> c.positions[id] == b.positions[id];
    if base.Success? && base.value.Some? {
      BaseIsTracked(i, delta, price, c.positions[n]);
      hide BaseLadder;
    }
  }

  lemma AddFollows(b: Book, ladders: map<nat, Live>, i: Intent, id: nat, delta: Qty, price: real)
    requires Inv(b) && AllTracked(b.positions, ladders) && id < |b.positions| && b.positions[id].open
    ensures
      var route := Do(AddOp(id, delta, price));
      && Routed(b, ladders, i, route, delta, price).Some?
      && Followed(b.positions, ladders, i, route, Routed(b, ladders, i, route, delta, price).value)
  {
    hide Inv;
    hide Tracked;
    hide LiveLadder.ApplySafetyFill;
    EntryPositive(b, id);
    var c := Perform(b, AddOp(id, delta, price)).value;
    PerformKeepsInv(b, AddOp(id, delta, price));
    var p, q := b.positions[id], c.positions[id];
    assert q == AddTo(p, delta, price);
    if id in ladders {
      var l := ladders[id];
      if i.dca && l.nextSoIndex >= 0 {
        var t := LiveLadder.ApplySafetyFill(l, l.nextSoIndex, price, delta).state;
        AddIsTracked(p, l, delta, price, q.(sl := Some(t.slPrice), tp := Some(t.tpPrice)));
      } else {
        OtherAddIsTracked(p, l, delta, price, q);
      }
    }
    hide AddTo;
  }

  lemma CloseFollows(b: Book, ladders: map<nat, Live>, i: Intent, id: nat, delta: Qty, price: real)
    requires Inv(b) && AllTracked(b.positions, ladders) && id < |b.positions| && b.positions[id].open
    ensures
      var route := Do(CloseOp(id, delta, price));
      Routed(b, ladders, i, route, delta, price).Some? ==>
        Followed(b.positions, ladders, i, route, Routed(b, ladders, i, route, delta, price).value)
  {
    hide Inv;
    hide Tracked;
    var p := b.positions[id];
    if id in ladders {
      CloseIsTracked(p, ladders[id], CloseOf(p, delta, price));
    }
    hide CloseOf;
  }

  /** A close ends an active ladder exactly if it leaves nothing held, and keeps all else about it. */
  lemma CloseEndsLadderExactly(b: Book, ladders: map<nat, Live>, i: Intent, id: nat, delta: Qty, price: real)
    requires Inv(b) && id < |b.positions| && id in ladders && ladders[id].phase == LiveLadder.LadderActive
    requires Routed(b, ladders, i, Do(CloseOp(id, delta, price)), delta, price).Some?
    ensures
      var after := Routed(b, ladders, i, Do(CloseOp(id, delta, price)), delta, price).value;
      && id < |after.book.positions| && after.ladders.Keys == ladders.Keys
      && (forall other :: other in ladders && other != id ==> after.ladders[other] == ladders[other])
      && (after.ladders[id].phase == LiveLadder.Completed <==> after.book.positions[id].currentQty <= 0.0)
      && (after.ladders[id].phase != LiveLadder.Completed ==> after.ladders[id] == ladders[id])
      && after.ladders[id].fills == ladders[id].fills
  {
    hide Inv;
    hide CloseOf;
  }

  /** Every routed fill leaves positions on their ladders' levels, and on their totals exactly if it bypasses none. */
  lemma RoutedFollows(b: Book, ladders: map<nat, Live>, i: Intent, delta: Qty, price: real)
    requires Inv(b) && AllTracked(b.positions, ladders) && FreshLadder(i)
    ensures
      var route := RouteOf(b, i, delta, price);
      && (Routed(b, ladders, i, route, delta, price).Some? ==>
            Followed(b.positions, ladders, i, route, Routed(b, ladders, i, route, delta, price).value))
      && (route.Do? && route.op.AddOp? ==> Routed(b, ladders, i, route, delta, price).Some?)
  {
    hide Inv;
    hide AllTracked;
    hide Followed;
    hide Routed;
    var route := RouteOf(b, i, delta, price);
    if route.Do? {
      match route.op
      case OpenOp(_, _, _, _, _, _, _, _) =>
        if Routed(b, ladders, i, route, delta, price).Some? { OpenFollows(b, ladders, i, delta, price); }
      case AddOp(id, _, _) => AddFollows(b, ladders, i, id, delta, price);
      case CloseOp(id, _, _) => CloseFollows(b, ladders, i, id, delta, price);
    } else if route.Drop? {
      DroppedIsNothing(b, ladders, i, delta, price);
      DropFollows(b, ladders, i);
    } else if route.Raise? {
      RaiseIsRefused(b, ladders, i, delta, price);
    }
  }

  lemma DropFollows(b: Book, ladders: map<nat, Live>, i: Intent)
    requires AllTracked(b.positions, ladders)
    ensures Followed(b.positions, ladders, i, Drop, Ledgers(b, ladders))
  {
  }

  lemma RaiseIsRefused(b: Book, ladders: map<nat, Live>, i: Intent, delta: Qty, price: real)
    requires Inv(b)
    ensures Routed(b, ladders, i, Raise, delta, price) == None
  {
  }

  // ----- over whole runs -----

  /** The poll bypasses the ladder of this position. */
  predicate PollBypasses(w: World, a: Action, id: nat)
    requires Inv(w.book)
  {
    && a.Poll? && a.k < |w.intents| && Pollable(w.intents[a.k])
    && a.reading.cumExecQty > w.intents[a.k].cumExecQty
    && var i := w.intents[a.k];
       var delta := a.reading.cumExecQty - i.cumExecQty;
       Bypasses(w.ladders, i, RouteOf(w.book, i, delta, FillPrice(i, a.reading)), id)
  }

  ghost predicate StartsFresh(a: Action) {
    a.NewIntent? ==> FreshLadder(a.intent)
  }

  lemma ApplyFollows(w: World, a: Action, id: nat)
    requires Inv(w.book) && LaddersOk(w) && StartsFresh(a)
    ensures LaddersOk(Apply(w, a))
    ensures id in Apply(w, a).ladders ==>
      (Agrees(Apply(w, a).book.positions, Apply(w, a).ladders, id)
       <==> (id in w.ladders ==> Agrees(w.book.positions, w.ladders, id)) && !PollBypasses(w, a, id))
  {
    hide Inv;
    hide Tracked;
    hide RouteOf;
    hide Routed;
    hide Rounding;
    if a.Poll? && a.k < |w.intents| && Pollable(w.intents[a.k])
       && a.reading.cumExecQty > w.intents[a.k].cumExecQty {
      var i := w.intents[a.k];
      RoutedFollows(w.book, w.ladders, i, a.reading.cumExecQty - i.cumExecQty, FillPrice(i, a.reading));
    }
  }

  ghost predicate FreshStarts(actions: seq<Action>) {
    forall n :: 0 <= n < |actions| ==> StartsFresh(actions[n])
  }

  ghost predicate NeverBypassed(actions: seq<Action>, id: nat) {
    forall n :: 0 <= n < |actions| ==> !PollBypasses(Trace(actions[..n]), actions[n], id)
  }

  /**
   * Over every run: each position with a ladder carries that ladder's side and levels, and has entered the ladder's
   * quantity exactly if no fill ever bypassed the ladder; then cost and average agree as well.
   */
  lemma {:induction false} LaddersFollowExactly(actions: seq<Action>, id: nat)
    requires FreshStarts(actions)
    ensures LaddersOk(Trace(actions))
    ensures
      var w := Trace(actions);
      id in w.ladders ==> (Agrees(w.book.positions, w.ladders, id) <==> NeverBypassed(actions, id))
  {
    hide Apply;
    hide Inv;
    hide Tracked;
    hide PollBypasses;
    if actions == [] {
      assert Trace([]) == EMPTY_WORLD;
    } else {
      var before, a := actions[..|actions| - 1], actions[|actions| - 1];
      assert forall n :: 0 <= n <= |before| ==> before[..n] == actions[..n];
      assert forall n :: 0 <= n < |before| ==> before[n] == actions[n];
      LaddersFollowExactly(before, id);
      ApplyFollows(Trace(before), a, id);
      if id !in Trace(before).ladders { NoLadderNoBypass(before, id); }
      assert Trace(actions) == Apply(Trace(before), a);
      hide Trace;
      assert NeverBypassed(actions, id) <==> NeverBypassed(before, id) && !PollBypasses(Trace(before), a, id);
    }
  }

  /** Over every run: a ladder still active has an open position with something held, so no closed one keeps it. */
  lemma LaddersEndWithPositions(actions: seq<Action>, id: nat)
    requires FreshStarts(actions)
    ensures
      var w := Trace(actions);
      id in w.ladders && w.ladders[id].phase == LiveLadder.LadderActive ==>
        id < |w.book.positions| && w.book.positions[id].open && w.book.positions[id].currentQty > 0.0
  {
    hide Trace;
    hide Inv;
    LaddersFollowExactly(actions, id);
    var w := Trace(actions);
    if id in w.ladders {
      assert Tracked(w.book.positions[id], w.ladders[id]);
      ClosedHoldsNothing(w.book, id);
    }
  }

  lemma ClosedHoldsNothing(b: Book, id: nat)
    requires Inv(b) && id < |b.positions|
    ensures !b.positions[id].open ==> b.positions[id].currentQty == 0.0
  {
    hide PositionInv;
    ClosedRow(b.positions[id], EventsOf(b.events, id));
  }

  lemma ClosedRow(p: Position, events: seq<Event>)
    requires PositionInv(p, events)
    ensures !p.open ==> p.currentQty == 0.0
  {
  }

  /** A ladder that is not there yet was never bypassed. */
  lemma {:induction false} NoLadderNoBypass(actions: seq<Action>, id: nat)
    requires id !in Trace(actions).ladders
    ensures NeverBypassed(actions, id)
  {
    hide Inv;
    hide Apply;
    hide PollBypasses;
    if actions != [] {
      var before, a := actions[..|actions| - 1], actions[|actions| - 1];
      assert forall n :: 0 <= n <= |before| ==> before[..n] == actions[..n];
      LaddersStay(Trace(before), a, id);
      NoLadderNoBypass(before, id);
    }
  }

  /** A ladder once kept stays. */
  lemma LaddersStay(w: World, a: Action, id: nat)
    requires Inv(w.book)
    ensures id in w.ladders ==> id in Apply(w, a).ladders
    ensures id !in w.ladders ==> !PollBypasses(w, a, id)
  {
    hide Inv;
    hide Perform;
    hide RouteOf;
  }

  /** Where the quantities agree, so do cost and average. */
  lemma AgreementIsFull(w: World, id: nat)
    requires Inv(w.book) && LaddersOk(w) && Agrees(w.book.positions, w.ladders, id)
    ensures w.book.positions[id].costBasis == w.ladders[id].totalCostUsd
    ensures w.book.positions[id].avgEntryPrice == w.ladders[id].avgEntryPrice
  {
    hide Inv;
    hide Tracked;
    var p, l := w.book.positions[id], w.ladders[id];
    BookCost(w.book, id);
    LadderCost(p, l);
    SameAverage(p.avgEntryPrice, l.avgEntryPrice, p.entryQty, l.totalQty, p.costBasis);
  }

  lemma BookCost(b: Book, id: nat)
    requires Inv(b) && id < |b.positions|
    ensures b.positions[id].entryQty > 0.0
    ensures b.positions[id].avgEntryPrice * b.positions[id].entryQty == b.positions[id].costBasis
  {
    hide PositionInv;
    RowCost(b.positions[id], EventsOf(b.events, id));
  }

  lemma RowCost(p: Position, events: seq<Event>)
    requires PositionInv(p, events)
    ensures p.entryQty > 0.0 && p.avgEntryPrice * p.entryQty == p.costBasis
  {
  }

  lemma LadderCost(p: Position, l: Live)
    requires Tracked(p, l)
    ensures l.avgEntryPrice * l.totalQty == l.totalCostUsd
    ensures p.entryQty == l.totalQty ==> p.costBasis == l.totalCostUsd
  {
  }

  lemma SameAverage(x: real, y: real, qty: real, same: real, cost: real)
    requires qty > 0.0 && same == qty && x * qty == cost && y * same == cost
    ensures x == y
  {
    if x < y { MulStrict(x, y, qty); }
    if y < x { MulStrict(y, x, qty); }
  }

  // ----- a rung for every reading -----

  /**
   * Every fill that reaches the ladder takes its next rung, whether it is a safety order's, another part of an
   * order already counted, or the rest of the base order.
   */
  lemma RungPerReading(w: World, k: nat, r: Reading, id: nat)
    requires Inv(w.book) && LaddersOk(w) && id in w.ladders
    requires k < |w.intents| && Pollable(w.intents[k]) && r.cumExecQty > w.intents[k].cumExecQty
    requires
      var i := w.intents[k];
      var route := RouteOf(w.book, i, r.cumExecQty - i.cumExecQty, FillPrice(i, r));
      && route.Do? && route.op.AddOp? && route.op.id == id && !Bypasses(w.ladders, i, route, id)
    ensures
      var before, after := w.ladders[id], ReconcileOne(w, k, r).ladders;
      && id in after && after[id].safetyOrdersFilled == before.safetyOrdersFilled + 1
      && after[id].phase == LiveLadder.LadderActive && after[id].config == before.config
  {
    hide Inv;
    hide Rounding;
    var i := w.intents[k];
    var delta: Qty := r.cumExecQty - i.cumExecQty;
    assert Tracked(w.book.positions[id], w.ladders[id]);
    RungTaken(w.book, w.ladders, i, id, delta, FillPrice(i, r));
    hide RouteOf;
    hide Routed;
    hide Tracked;
  }

  lemma RungTaken(b: Book, ladders: map<nat, Live>, i: Intent, id: nat, delta: Qty, price: real)
    requires Inv(b) && id < |b.positions| && b.positions[id].open && id in ladders
    requires Tracked(b.positions[id], ladders[id]) && i.dca && ladders[id].nextSoIndex >= 0
    ensures
      var after := Routed(b, ladders, i, Do(AddOp(id, delta, price)), delta, price);
      && after.Some? && id in after.value.ladders
      && after.value.ladders[id].safetyOrdersFilled == ladders[id].safetyOrdersFilled + 1
      && after.value.ladders[id].phase == LiveLadder.LadderActive
      && after.value.ladders[id].config == ladders[id].config
  {
    hide Inv;
    EntryPositive(b, id);
    hide DcaPlanning.AvgEntry;
    hide DcaPlanning.Against;
    hide DcaPlanning.InFavour;
    hide LiveLadder.Priced;
    hide AddTo;
  }

  /** The poll takes a rung of this position's ladder. */
  predicate TakesRung(w: World, a: Action, id: nat)
    requires Inv(w.book)
  {
    && a.Poll? && a.k < |w.intents| && Pollable(w.intents[a.k])
    && a.reading.cumExecQty > w.intents[a.k].cumExecQty
    && var i := w.intents[a.k];
       var route := RouteOf(w.book, i, a.reading.cumExecQty - i.cumExecQty, FillPrice(i, a.reading));
       route.Do? && route.op.AddOp? && route.op.id == id && id in w.ladders && !Bypasses(w.ladders, i, route, id)
  }

  /** Rungs taken in a run by first parts of orders, or by later ones. */
  function RungsTaken(actions: seq<Action>, id: nat, later: bool): nat {
    if actions == [] then 0
    else
      var before, a := actions[..|actions| - 1], actions[|actions| - 1];
      var w := Trace(before);
      RungsTaken(before, id, later)
      + if TakesRung(w, a, id) && (w.intents[a.k].cumExecQty > 0.0) == later then 1 else 0
  }

  lemma OtherStepsTakeNone(w: World, a: Action, id: nat)
    requires Inv(w.book) && LaddersOk(w) && StartsFresh(a) && !TakesRung(w, a, id)
    ensures id in Apply(w, a).ladders ==>
      Apply(w, a).ladders[id].safetyOrdersFilled == if id in w.ladders then w.ladders[id].safetyOrdersFilled else 0
  {
    hide Inv;
    hide Rounding;
    hide RouteOf;
    hide Routed;
    hide AllTracked;
    hide Bypasses;
    if a.Poll? && a.k < |w.intents| && Pollable(w.intents[a.k])
       && a.reading.cumExecQty > w.intents[a.k].cumExecQty {
      var i := w.intents[a.k];
      var delta: Qty := a.reading.cumExecQty - i.cumExecQty;
      OtherFillsTakeNone(w.book, w.ladders, i, delta, FillPrice(i, a.reading), id);
    }
  }

  lemma OtherFillsTakeNone(b: Book, ladders: map<nat, Live>, i: Intent, delta: Qty, price: real, id: nat)
    requires Inv(b) && AllTracked(b.positions, ladders) && FreshLadder(i)
    requires
      var route := RouteOf(b, i, delta, price);
      route.Do? && route.op.AddOp? && route.op.id == id && id in ladders ==> Bypasses(ladders, i, route, id)
    ensures
      var after := Routed(b, ladders, i, RouteOf(b, i, delta, price), delta, price);
      after.Some? && id in after.value.ladders ==>
        after.value.ladders[id].safetyOrdersFilled == if id in ladders then ladders[id].safetyOrdersFilled else 0
  {
    hide Inv;
    hide Tracked;
  }

  /** A ladder's count of filled safety orders is that of the readings it took, first parts and later parts alike. */
  lemma {:induction false} RungsAreReadings(actions: seq<Action>, id: nat)
    requires FreshStarts(actions)
    ensures
      var w, later := Trace(actions), RungsTaken(actions, id, true);
      if id in w.ladders then w.ladders[id].safetyOrdersFilled == RungsTaken(actions, id, false) + later
      else RungsTaken(actions, id, false) + later == 0
  {
    hide Inv;
    hide Apply;
    hide TakesRung;
    hide LaddersOk;
    if actions == [] {
      assert Trace([]) == EMPTY_WORLD;
    } else {
      var before, a := actions[..|actions| - 1], actions[|actions| - 1];
      assert forall n :: 0 <= n < |before| ==> before[n] == actions[n];
      RungsAreReadings(before, id);
      LaddersFollowExactly(before, id);
      LaddersStay(Trace(before), a, id);
      StepTakes(Trace(before), a, id);
    }
  }

  lemma StepTakes(w: World, a: Action, id: nat)
    requires Inv(w.book) && LaddersOk(w) && StartsFresh(a)
    ensures TakesRung(w, a, id) ==> id in w.ladders
    ensures id in Apply(w, a).ladders ==>
      Apply(w, a).ladders[id].safetyOrdersFilled
      == (if id in w.ladders then w.ladders[id].safetyOrdersFilled else 0) + if TakesRung(w, a, id) then 1 else 0
  {
    hide Inv;
    hide LaddersOk;
    if TakesRung(w, a, id) {
      RungPerReading(w, a.k, a.reading, id);
    } else {
      OtherStepsTakeNone(w, a, id);
    }
    hide RouteOf;
    hide ReconcileOne;
  }

  /**
   * Over every run, a ladder counts the orders that reached it exactly if none of them, and no part of the base
   * order after the first, reached it in more than one reading.
   */
  lemma RungsAreOrdersExactly(actions: seq<Action>, id: nat)
    requires FreshStarts(actions) && id in Trace(actions).ladders
    ensures Trace(actions).ladders[id].safetyOrdersFilled == RungsTaken(actions, id, false)
       <==> RungsTaken(actions, id, true) == 0
  {
    hide Trace;
    hide RungsTaken;
    RungsAreReadings(actions, id);
  }

  const CONFIG := DcaPlanning.DcaConfig(100.0, 2, 1.0, 1.0, 1.0, 1.0)

  function BaseOrder(l: Live): Intent {
    Intent("bot", "run", "BTCUSDT", EntryIntent, Buy, Some(100.0), None, None, None, true, Some(l), 0.0, None, Placed)
  }

  const HALF := Reading(PartlyFilled, 0.5, 100.0, 100.0)

  const WHOLE := Reading(FullyFilled, 1.0, 100.0, 100.0)

  /** The first half of the order has opened the position and its ladder. */
  ghost predicate HalfFilled(w: World, l: Live) {
    && w.intents == [BaseOrder(l).(cumExecQty := 0.5, state := PartiallyFilled, avgFillPrice := Some(100.0))]
    && |w.book.positions| == 1 && w.book.positions[0].open
    && w.book.positions[0].runId == "run" && w.book.positions[0].symbol == "BTCUSDT"
    && 0 in w.ladders && w.ladders[0].nextSoIndex == 0 && w.ladders[0].safetyOrdersFilled == 0
    && w.ladders[0].config == CONFIG
  }

  /** The ladder counts one safety order as filled, and does not trigger it at any price. */
  ghost predicate RungLost(w: World) {
    && 0 in w.ladders
    && var s := w.ladders[0];
       && s.phase == LiveLadder.LadderActive && LiveLadder.LiveOk(s) && s.config == CONFIG && s.safetyOrdersFilled == 1
       && forall price :: DcaPlanning.Level(s.config, s.baseEntryPrice, s.side, 0) !in LiveLadder.Triggered(s, price)
  }

  /**
   * A base order that fills in two parts takes the first safety order's rung with its second part, so that this
   * order is never placed.
   */
  lemma PartialBaseExample(l: Live)
    requires LiveLadder.InitDcaState(CONFIG, Long, 5.0) == Success(l)
    ensures
      var w := Trace([NewIntent(BaseOrder(l)), Poll(0, HALF), Poll(0, WHOLE)]);
      |w.intents| == 1 && RungLost(w)
  {
    hide Trace;
    hide Inv;
    hide LaddersOk;
    hide ReconcileOne;
    hide RungLost;
    hide HalfFilled;
    var two := [NewIntent(BaseOrder(l)), Poll(0, HALF)];
    AfterFirstHalf(l);
    TraceStep(two, Poll(0, WHOLE));
    assert two + [Poll(0, WHOLE)] == [NewIntent(BaseOrder(l)), Poll(0, HALF), Poll(0, WHOLE)];
    BaseOrderIsFresh(l);
    LaddersFollowExactly(two, 0);
    LaddersFollowExactly(two + [Poll(0, WHOLE)], 0);
    SecondHalf(l, Trace(two));
  }

  lemma BaseOrderIsFresh(l: Live)
    requires LiveLadder.InitDcaState(CONFIG, Long, 5.0) == Success(l)
    ensures FreshLadder(BaseOrder(l))
  {
    LiveLadder.InitIsOk(CONFIG, Long, 5.0);
  }

  lemma AfterFirstHalf(l: Live)
    requires LiveLadder.InitDcaState(CONFIG, Long, 5.0) == Success(l)
    ensures HalfFilled(Trace([NewIntent(BaseOrder(l)), Poll(0, HALF)]), l)
  {
    NoActions();
    hide Trace;
    hide Inv;
    hide ReconcileOne;
    hide HalfFilled;
    hide LiveLadder.InitDcaState;
    var first := NewIntent(BaseOrder(l));
    assert [] + [first] == [first] && [first] + [Poll(0, HALF)] == [first, Poll(0, HALF)];
    TraceStep([], first);
    TraceStep([first], Poll(0, HALF));
    FirstHalf(l, Trace([first]));
  }

  lemma FirstHalf(l: Live, w: World)
    requires LiveLadder.InitDcaState(CONFIG, Long, 5.0) == Success(l)
    requires w == EMPTY_WORLD.(intents := [BaseOrder(l)]) && Inv(w.book)
    ensures HalfFilled(ReconcileOne(w, 0, HALF), l)
  {
    assert LiveLadder.OrdersFor(CONFIG, 100.0, Long).Success?;
    assert Active([], "run", "BTCUSDT") == None;
  }

  lemma SecondHalf(l: Live, w: World)
    requires Inv(w.book) && LaddersOk(w) && HalfFilled(w, l)
    requires Inv(ReconcileOne(w, 0, WHOLE).book) && LaddersOk(ReconcileOne(w, 0, WHOLE))
    ensures |ReconcileOne(w, 0, WHOLE).intents| == 1 && RungLost(ReconcileOne(w, 0, WHOLE))
  {
    hide Inv;
    hide Tracked;
    OnlyActive(w.book.positions);
    RungPerReading(w, 0, WHOLE, 0);
    hide RouteOf;
    hide Routed;
    var next := ReconcileOne(w, 0, WHOLE);
    TrackedIsSound(next, 0);
    NeverTriggered(next.ladders[0]);
  }

  lemma TrackedIsSound(w: World, id: nat)
    requires LaddersOk(w) && id in w.ladders
    ensures LiveLadder.LiveOk(w.ladders[id])
  {
    assert Tracked(w.book.positions[id], w.ladders[id]);
  }

  lemma NeverTriggered(s: Live)
    requires LiveLadder.LiveOk(s) && s.phase == LiveLadder.LadderActive
    requires s.config == CONFIG && s.safetyOrdersFilled == 1
    ensures forall price ::
      DcaPlanning.Level(s.config, s.baseEntryPrice, s.side, 0) !in LiveLadder.Triggered(s, price)
  {
    forall price ensures DcaPlanning.Level(s.config, s.baseEntryPrice, s.side, 0) !in LiveLadder.Triggered(s, price) {
      LiveLadder.TriggersExactlyPending(s, price, 0);
    }
  }

  lemma OnlyActive(ps: seq<Position>)
    requires |ps| == 1 && ps[0].open && ps[0].runId == "run" && ps[0].symbol == "BTCUSDT"
    ensures Active(ps, "run", "BTCUSDT") == Some(0)
  {
  }
}
