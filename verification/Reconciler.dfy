/**
 * Fill reconciliation (`botWorker.ts`): deltas of the exchange's cumulative fill counters flow into the
 * position ledger and the DCA ladders, and nothing is lost or counted twice on the way.
 */
module Reconciler {
  import opened Wrappers
  import opened Market
  import opened Reals
  import opened PositionLedger
  import DcaPlanning
  import LiveLadder

  type Live = LiveLadder.Live

  datatype IntentKind = EntryIntent | ExitIntent | OtherIntent

  datatype OrderSide = Buy | Sell

  datatype IntentState = Placed | PartiallyFilled | Filled | Cancelled | FailedIntent

  datatype Intent = Intent(
    botId: string,
    runId: string,
    symbol: string,
    kind: IntentKind,
    side: OrderSide,
    price: Option<real>,
    positionId: Option<nat>,
    sl: Option<real>,
    tp: Option<real>,
    dca: bool,
    ladder: Option<Live>,
    cumExecQty: real,
    avgFillPrice: Option<real>,
    state: IntentState
  )

  /** Bybit's order states as `mapBybitStatus` reports them. */
  datatype OrderStatus = Submitted | PartlyFilled | FullyFilled | OrderCancelled | OrderRejected

  datatype Reading = Reading(status: OrderStatus, cumExecQty: real, avgPrice: real, price: real)

  /**
   * Ledger, ladders by position, and intents, with three tallies kept for the proof only: fills routed to no
   * position, the rounding of full closes, and how many full closes there were.
   */
  datatype World = World(
    book: Book,
    ladders: map<nat, Live>,
    intents: seq<Intent>,
    unrouted: real,
    slack: real,
    fullCloses: nat
  )

  function FillPrice(i: Intent, r: Reading): real {
    if r.avgPrice > 0.0 then r.avgPrice else if r.price > 0.0 then r.price else i.price.Else(0.0)
  }

  /** The latest open position of the run on the symbol. */
  function Active(ps: seq<Position>, runId: string, symbol: string): (r: Option<nat>)
    ensures r.Some? ==> r.value < |ps| && ps[r.value].open
  {
    if ps == [] then None
    else
      var last := ps[|ps| - 1];
      if last.open && last.runId == runId && last.symbol == symbol then Some(|ps| - 1)
      else Active(ps[..|ps| - 1], runId, symbol)
  }

  /** What a fill does to the ledger: an operation, nothing at all, or an error that is caught and retried. */
  datatype Route = Do(op: Op) | Drop | Raise

  /** The ladder a base order brings with it, activated by the fill; the activation may raise. */
  function BaseLadder(i: Intent, delta: Qty, price: real): Result<Option<Live>, DcaPlanning.ScheduleError> {
    if !i.dca || i.ladder == None then Success(None)
    else
      var r := LiveLadder.ApplyBaseFill(i.ladder.value, price, delta);
      if r.Failure? then Failure(r.error) else Success(Some(r.value.state))
  }

  function EntryRoute(b: Book, i: Intent, delta: Qty, price: real): Route {
    var active := Active(b.positions, i.runId, i.symbol);
    if active == None && i.cumExecQty == 0.0 then
      var base := BaseLadder(i, delta, price);
      if base.Failure? then Raise
      else
        var sl, tp := if base.value.Some? then Some(base.value.value.slPrice) else i.sl,
                      if base.value.Some? then Some(base.value.value.tpPrice) else i.tp;
        Do(OpenOp(i.botId, i.runId, i.symbol, if i.side == Sell then Short else Long, delta, price, sl, tp))
    else if active.Some? then Do(AddOp(active.value, delta, price))
    else Drop
  }

  /** The position an exit names, if it is open; without a name, the active one. */
  function ExitTarget(b: Book, i: Intent): (r: Option<nat>)
    ensures r.Some? ==> r.value < |b.positions| && b.positions[r.value].open
  {
    if i.positionId.Some? then
      if i.positionId.value < |b.positions| && b.positions[i.positionId.value].open then i.positionId else None
    else Active(b.positions, i.runId, i.symbol)
  }

  function ExitRoute(b: Book, i: Intent, delta: Qty, price: real): Route {
    var target := ExitTarget(b, i);
    if target == None then Drop else Do(CloseOp(target.value, delta, price))
  }

  function RouteOf(b: Book, i: Intent, delta: Qty, price: real): (route: Route)
    ensures route.Do? && route.op.CloseOp? ==> route.op.id < |b.positions|
  {
    match i.kind
    case EntryIntent => EntryRoute(b, i, delta, price)
    case ExitIntent => ExitRoute(b, i, delta, price)
    case OtherIntent => Drop
  }

  predicate Settles(r: Reading) {
    r.status == OrderCancelled || r.status == OrderRejected
  }

  function NewState(i: Intent, r: Reading): IntentState {
    match r.status
    case FullyFilled => Filled
    case PartlyFilled => PartiallyFilled
    case OrderCancelled => Cancelled
    case OrderRejected => FailedIntent
    case Submitted => i.state
  }

  function Progressed(i: Intent, r: Reading): Intent {
    var price := FillPrice(i, r);
    i.(state := NewState(i, r), cumExecQty := r.cumExecQty,
       avgFillPrice := if price > 0.0 then Some(price) else i.avgFillPrice)
  }

  predicate Pollable(i: Intent) {
    i.state == Placed || i.state == PartiallyFilled
  }

  /** Quantity a fill of `i` stands for in the books: entries add, exits take away. */
  function SignedQty(i: Intent, qty: real): real {
    match i.kind
    case EntryIntent => qty
    case ExitIntent => -qty
    case OtherIntent => 0.0
  }

  /** The next rung of a position's ladder takes the fill, whichever order it belongs to. */
  function LadderFill(ladders: map<nat, Live>, id: nat, i: Intent, delta: Qty, price: real)
    : Option<LiveLadder.Transition>
  {
    if i.dca && id in ladders && ladders[id].nextSoIndex >= 0 then
      Some(LiveLadder.ApplySafetyFill(ladders[id], ladders[id].nextSoIndex, price, delta))
    else None
  }

  /** The ledger, and the ladder kept with each position that has one. */
  datatype Ledgers = Ledgers(book: Book, ladders: map<nat, Live>)

  /** What follows an accepted operation: the ladder starts, moves on with the levels, or ends with its position. */
  function AfterFill(c: Book, ladders: map<nat, Live>, i: Intent, op: Op, delta: Qty, price: real): Ledgers
    requires Inv(c)
  {
    match op
    case OpenOp(_, _, _, _, _, _, _, _) =>
      var base := BaseLadder(i, delta, price);
      if base.Success? && base.value.Some? && |c.positions| > 0
      then Ledgers(c, ladders[|c.positions| - 1 := base.value.value]) else Ledgers(c, ladders)
    case AddOp(id, _, _) =>
      var t := LadderFill(ladders, id, i, delta, price);
      if t.Some? && t.value.exitLevelsChanged then
        var moved := Perform(c, LevelsOp(id, Some(Some(t.value.state.slPrice)), Some(Some(t.value.state.tpPrice))));
        Ledgers(if moved.Success? then moved.value else c, ladders[id := t.value.state])
      else Ledgers(c, ladders)
    case CloseOp(id, _, _) =>
      if id in ladders && ladders[id].phase == LiveLadder.LadderActive
         && id < |c.positions| && c.positions[id].currentQty <= 0.0
      then Ledgers(c, ladders[id := LiveLadder.CompleteLadder(ladders[id])]) else Ledgers(c, ladders)
    case LevelsOp(_, _, _) => Ledgers(c, ladders)
  }

  /** Ledger and ladders once the fill is routed, unless that raises. */
  function Routed(b: Book, ladders: map<nat, Live>, i: Intent, route: Route, delta: Qty, price: real): Option<Ledgers>
    requires Inv(b)
  {
    match route
    case Drop => Some(Ledgers(b, ladders))
    case Raise => None
    case Do(op) =>
      var outcome := Perform(b, op);
      if outcome.Failure? then None
      else
        PerformKeepsInv(b, op);
        Some(AfterFill(outcome.value, ladders, i, op, delta, price))
  }

  /** One intent, one reading of its order. */
  function ReconcileOne(w: World, k: nat, r: Reading): World
    requires Inv(w.book)
  {
    if k >= |w.intents| || !Pollable(w.intents[k]) then w
    else
      var i := w.intents[k];
      var delta := r.cumExecQty - i.cumExecQty;
      var done := w.intents[k := Progressed(i, r)];
      if delta <= 0.0 then
        if Settles(r) then w.(intents := done) else w
      else
        var route := RouteOf(w.book, i, delta, FillPrice(i, r));
        var after := Routed(w.book, w.ladders, i, route, delta, FillPrice(i, r));
        if after == None then w
        else if route == Drop then w.(intents := done, unrouted := w.unrouted + SignedQty(i, delta))
        else
          var full := FullClose(w.book, route, delta);
          World(after.value.book, after.value.ladders, done, w.unrouted,
                w.slack + Rounding(w.book, route, delta), w.fullCloses + if full then 1 else 0)
  }

  predicate FullClose(b: Book, route: Route, delta: Qty) {
    && route.Do? && route.op.CloseOp? && route.op.id < |b.positions|
    && IsFullClose(b.positions[route.op.id], delta)
  }

  function Rounding(b: Book, route: Route, delta: Qty): real {
    if FullClose(b, route, delta) then delta - b.positions[route.op.id].currentQty else 0.0
  }

  // ----- conservation -----

  function Holdings(ps: seq<Position>): real {
    if ps == [] then 0.0 else Holdings(ps[..|ps| - 1]) + ps[|ps| - 1].currentQty
  }

  /** Entry fills minus exit fills, as the intents' counters report them. */
  function NetFills(intents: seq<Intent>): real {
    if intents == [] then 0.0
    else
      var last := intents[|intents| - 1];
      NetFills(intents[..|intents| - 1]) + SignedQty(last, last.cumExecQty)
  }

  ghost predicate Conserved(w: World) {
    && Holdings(w.book.positions) + w.unrouted == NetFills(w.intents) + w.slack
    && -(w.fullCloses as real) * TOLERANCE <= w.slack <= w.fullCloses as real * TOLERANCE
  }

  lemma {:induction false} HoldingsUpdate(ps: seq<Position>, id: nat, p: Position)
    requires id < |ps|
    ensures Holdings(ps[id := p]) == Holdings(ps) - ps[id].currentQty + p.currentQty
  {
    var n := |ps| - 1;
    if id == n {
      assert ps[id := p][..n] == ps[..n];
    } else {
      HoldingsUpdate(ps[..n], id, p);
      assert ps[id := p][..n] == ps[..n][id := p];
    }
  }

  lemma {:induction false} NetFillsUpdate(intents: seq<Intent>, k: nat, i: Intent)
    requires k < |intents|
    ensures NetFills(intents[k := i])
         == NetFills(intents) - SignedQty(intents[k], intents[k].cumExecQty) + SignedQty(i, i.cumExecQty)
  {
    var n := |intents| - 1;
    if k == n {
      assert intents[k := i][..n] == intents[..n];
    } else {
      NetFillsUpdate(intents[..n], k, i);
      assert intents[k := i][..n] == intents[..n][k := i];
    }
  }

  /** An accepted operation of a fill moves the holdings by the fill, up to the rounding of a full close. */
  lemma PerformedMovesHoldings(b: Book, i: Intent, delta: Qty, price: real)
    requires Inv(b) && RouteOf(b, i, delta, price).Do?
    requires Perform(b, RouteOf(b, i, delta, price).op).Success?
    ensures
      var route := RouteOf(b, i, delta, price);
      Holdings(Perform(b, route.op).value.positions)
      == Holdings(b.positions) + SignedQty(i, delta) + Rounding(b, route, delta)
  {
    hide Inv;
    var op := RouteOf(b, i, delta, price).op;
    var c := Perform(b, op).value;
    match op
    case OpenOp(_, _, _, _, _, _, _, _) =>
      assert c.positions[..|b.positions|] == b.positions;
    case AddOp(id, _, _) =>
      HoldingsUpdate(b.positions, id, c.positions[id]);
    case CloseOp(id, _, _) =>
      HoldingsUpdate(b.positions, id, c.positions[id]);
  }

  /** The ladder's part of a fill moves levels only. */
  lemma LadderMovesNoHoldings(c: Book, ladders: map<nat, Live>, i: Intent, op: Op, delta: Qty, price: real)
    requires Inv(c)
    ensures Inv(AfterFill(c, ladders, i, op, delta, price).book)
    ensures Holdings(AfterFill(c, ladders, i, op, delta, price).book.positions) == Holdings(c.positions)
  {
    hide Inv;
    if op.AddOp? {
      var t := LadderFill(ladders, op.id, i, delta, price);
      if t.Some? && t.value.exitLevelsChanged {
        var levels := LevelsOp(op.id, Some(Some(t.value.state.slPrice)), Some(Some(t.value.state.tpPrice)));
        LevelsMoveNoHoldings(c, levels);
      }
    }
  }

  lemma LevelsMoveNoHoldings(c: Book, op: Op)
    requires Inv(c) && op.LevelsOp?
    ensures Perform(c, op).Success? ==>
      Inv(Perform(c, op).value) && Holdings(Perform(c, op).value.positions) == Holdings(c.positions)
  {
    hide Inv;
    if Perform(c, op).Success? {
      PerformKeepsInv(c, op);
      HoldingsUpdate(c.positions, op.id, Perform(c, op).value.positions[op.id]);
    }
  }

  /** The position is the latest of those open for the run on the symbol. */
  ghost predicate IsActive(ps: seq<Position>, runId: string, symbol: string, id: nat) {
    && id < |ps| && ps[id].open && ps[id].runId == runId && ps[id].symbol == symbol
    && forall k :: id < k < |ps| ==> !(ps[k].open && ps[k].runId == runId && ps[k].symbol == symbol)
  }

  lemma {:induction false} ActiveExactly(ps: seq<Position>, runId: string, symbol: string, id: nat)
    ensures Active(ps, runId, symbol) == Some(id) <==> IsActive(ps, runId, symbol, id)
  {
    if ps != [] {
      var before := ps[..|ps| - 1];
      ActiveExactly(before, runId, symbol, id);
      assert forall k :: 0 <= k < |before| ==> ps[k] == before[k];
    }
  }

  /** Which position a fill reaches: an entry its run's active one, an exit the one it names or else that one too. */
  ghost predicate Reaches(ps: seq<Position>, i: Intent, id: nat) {
    match i.kind
    case EntryIntent => IsActive(ps, i.runId, i.symbol, id)
    case ExitIntent =>
      if i.positionId.Some? then id == i.positionId.value && id < |ps| && ps[id].open
      else IsActive(ps, i.runId, i.symbol, id)
    case OtherIntent => false
  }

  function TargetOf(b: Book, i: Intent): Option<nat> {
    match i.kind
    case EntryIntent => Active(b.positions, i.runId, i.symbol)
    case ExitIntent => ExitTarget(b, i)
    case OtherIntent => None
  }

  lemma TargetExactly(b: Book, i: Intent, id: nat)
    ensures TargetOf(b, i) == Some(id) <==> Reaches(b.positions, i, id)
  {
    ActiveExactly(b.positions, i.runId, i.symbol, id);
    hide IsActive;
  }

  /**
   * An entry adds to the position it reaches, an exit closes it. Where there is none, an entry opens one with its
   * first fill, or is refused with the ladder it brings; every other fill is dropped.
   */
  lemma RoutesExactly(b: Book, i: Intent, delta: Qty, price: real, id: nat)
    ensures
      var route, ps := RouteOf(b, i, delta, price), b.positions;
      var first := i.kind == EntryIntent && i.cumExecQty == 0.0 && !exists k :: Reaches(ps, i, k);
      && (route == Do(AddOp(id, delta, price)) <==> i.kind == EntryIntent && Reaches(ps, i, id))
      && (route == Do(CloseOp(id, delta, price)) <==> i.kind == ExitIntent && Reaches(ps, i, id))
      && ((route.Do? && route.op.OpenOp?) || route == Raise <==> first)
      && (route == Raise <==> first && BaseLadder(i, delta, price).Failure?)
      && (route == Drop <==> !first && !exists k :: Reaches(ps, i, k))
  {
    forall k: nat ensures TargetOf(b, i) == Some(k) <==> Reaches(b.positions, i, k) {
      TargetExactly(b, i, k);
    }
    var target := TargetOf(b, i);
    assert target.Some? ==> Reaches(b.positions, i, target.value);
    hide BaseLadder;
    hide Reaches;
  }

  /** A routed fill moves the holdings by the fill, up to the rounding of a full close. */
  lemma RoutedMovesHoldings(b: Book, ladders: map<nat, Live>, i: Intent, delta: Qty, price: real)
    requires Inv(b)
    ensures
      var route := RouteOf(b, i, delta, price);
      var after := Routed(b, ladders, i, route, delta, price);
      after.Some? ==>
        && Inv(after.value.book)
        && Holdings(after.value.book.positions)
           == Holdings(b.positions) + (if route == Drop then 0.0 else SignedQty(i, delta) + Rounding(b, route, delta))
        && Abs(Rounding(b, route, delta)) < TOLERANCE
  {
    hide Inv;
    hide Perform;
    hide AfterFill;
    hide RouteOf;
    hide Holdings;
    var route := RouteOf(b, i, delta, price);
    if route.Do? && Perform(b, route.op).Success? {
      PerformKeepsInv(b, route.op);
      PerformedMovesHoldings(b, i, delta, price);
      LadderMovesNoHoldings(Perform(b, route.op).value, ladders, i, route.op, delta, price);
    }
  }

  /** The exchange takes back reported fills while ending the order. */
  predicate RollsBack(w: World, k: nat, r: Reading) {
    && k < |w.intents| && Pollable(w.intents[k]) && w.intents[k].kind != OtherIntent
    && r.cumExecQty < w.intents[k].cumExecQty && Settles(r)
  }

  /**
   * One step conserves fills exactly unless the counter runs backwards on a cancelled or rejected order:
   * then the intent follows the counter but the position does not.
   */
  lemma StepConserves(w: World, k: nat, r: Reading)
    requires Inv(w.book) && Conserved(w)
    ensures Inv(ReconcileOne(w, k, r).book)
    ensures Conserved(ReconcileOne(w, k, r)) <==> !RollsBack(w, k, r)
  {
    hide Inv;
    hide Routed;
    hide RouteOf;
    hide Rounding;
    hide Holdings;
    if k < |w.intents| && Pollable(w.intents[k]) {
      var i := w.intents[k];
      var delta := r.cumExecQty - i.cumExecQty;
      NetFillsUpdate(w.intents, k, Progressed(i, r));
      hide NetFills;
      if delta > 0.0 {
        RoutedMovesHoldings(w.book, w.ladders, i, delta, FillPrice(i, r));
        RoundingIsFullClose(w.book, RouteOf(w.book, i, delta, FillPrice(i, r)), delta);
      }
    }
  }

  lemma RoundingIsFullClose(b: Book, route: Route, delta: Qty)
    ensures !FullClose(b, route, delta) ==> Rounding(b, route, delta) == 0.0
  {
  }

  /** A refused fill changes neither side, and is seen again at the next poll. */
  lemma RefusedChangesNothing(w: World, k: nat, r: Reading)
    requires Inv(w.book) && k < |w.intents| && Pollable(w.intents[k]) && r.cumExecQty > w.intents[k].cumExecQty
    requires
      var route := RouteOf(w.book, w.intents[k], r.cumExecQty - w.intents[k].cumExecQty, FillPrice(w.intents[k], r));
      route.Raise? || (route.Do? && Perform(w.book, route.op).Failure?)
    ensures ReconcileOne(w, k, r) == w
  {
  }

  /**
   * A poll that moves an intent takes over the exchange's counter, and a positive price as its average; the intent
   * is polled again exactly if the exchange has not reported its order filled, cancelled or rejected. One that is not
   * polled again never changes, and without new fills only a cancelled or rejected order moves anything.
   */
  lemma PolledUntilReportedDone(w: World, k: nat, r: Reading)
    requires Inv(w.book) && k < |w.intents|
    ensures
      var i, next := w.intents[k], ReconcileOne(w, k, r);
      && |next.intents| == |w.intents|
      && (next.intents[k] != i ==>
            && Pollable(i) && next.intents[k].cumExecQty == r.cumExecQty
            && (Pollable(next.intents[k]) <==> r.status in {Submitted, PartlyFilled}))
      && (r.status == FullyFilled && next.intents[k] != i ==> next.intents[k].state == Filled)
      && (r.status == OrderCancelled && next.intents[k] != i ==> next.intents[k].state == Cancelled)
      && (r.status == OrderRejected && next.intents[k] != i ==> next.intents[k].state == FailedIntent)
      && (next.intents[k] != i ==>
            next.intents[k].avgFillPrice == if FillPrice(i, r) > 0.0 then Some(FillPrice(i, r)) else i.avgFillPrice)
      && (r.cumExecQty <= i.cumExecQty ==>
            && next.book == w.book && next.ladders == w.ladders
            && (r.status !in {OrderCancelled, OrderRejected} ==> next == w)
            && (r.status in {OrderCancelled, OrderRejected} && Pollable(i) ==>
                  !Pollable(next.intents[k]) && next.intents[k].cumExecQty == r.cumExecQty))
  {
    hide Inv;
    hide Routed;
    hide RouteOf;
    hide Rounding;
    hide FillPrice;
  }

  // ----- whole runs -----

  datatype Action = NewIntent(intent: Intent) | Poll(k: nat, reading: Reading)

  const EMPTY_WORLD := World(EMPTY, map[], [], 0.0, 0.0, 0)

  /** Intents enter with nothing filled. */
  function Apply(w: World, a: Action): World
    requires Inv(w.book)
  {
    match a
    case NewIntent(i) => w.(intents := w.intents + [i.(cumExecQty := 0.0, state := Placed)])
    case Poll(k, r) => ReconcileOne(w, k, r)
  }

  lemma ApplyKeepsInv(w: World, a: Action)
    requires Inv(w.book)
    ensures Inv(Apply(w, a).book)
  {
    hide Inv;
    hide Routed;
    hide RouteOf;
    hide Holdings;
    if a.Poll? && a.k < |w.intents| && a.reading.cumExecQty > w.intents[a.k].cumExecQty {
      var i := w.intents[a.k];
      RoutedMovesHoldings(w.book, w.ladders, i, a.reading.cumExecQty - i.cumExecQty, FillPrice(i, a.reading));
    }
  }

  function Trace(actions: seq<Action>): (w: World)
    ensures Inv(w.book)
  {
    if actions == [] then EMPTY_WORLD
    else
      var w := Trace(actions[..|actions| - 1]);
      ApplyKeepsInv(w, actions[|actions| - 1]);
      Apply(w, actions[|actions| - 1])
  }

  /** No reading in the run takes fills back. */
  ghost predicate Monotone(actions: seq<Action>) {
    forall n :: 0 <= n < |actions| ==> TakesNothingBack(Trace(actions[..n]), actions[n])
  }

  predicate TakesNothingBack(w: World, a: Action) {
    a.Poll? && a.k < |w.intents| ==> a.reading.cumExecQty >= w.intents[a.k].cumExecQty
  }

  /**
   * Fill conservation over whole runs: what the positions hold, plus what was routed to no position, is what
   * the counters report, within one tolerance per full close.
   */
  lemma {:induction false} FillsAreConserved(actions: seq<Action>)
    requires Monotone(actions)
    ensures Conserved(Trace(actions))
  {
    hide Inv;
    hide Apply;
    hide Conserved;
    hide Monotone;
    if actions == [] {
      assert Conserved(EMPTY_WORLD) by { NothingYet(); }
    } else {
      var before, a := actions[..|actions| - 1], actions[|actions| - 1];
      MonotonePrefix(actions);
      FillsAreConserved(before);
      ActionConserves(Trace(before), a);
    }
  }

  lemma NothingYet()
    ensures Conserved(EMPTY_WORLD)
  {
  }

  /** A prefix of a monotone run is monotone, and its last action takes nothing back. */
  lemma MonotonePrefix(actions: seq<Action>)
    requires actions != [] && Monotone(actions)
    ensures Monotone(actions[..|actions| - 1])
    ensures TakesNothingBack(Trace(actions[..|actions| - 1]), actions[|actions| - 1])
  {
    hide Trace;
    var before := actions[..|actions| - 1];
    forall n | 0 <= n < |before|
      ensures TakesNothingBack(Trace(before[..n]), before[n])
    {
      assert before[..n] == actions[..n] && before[n] == actions[n];
    }
  }

  lemma ActionConserves(w: World, a: Action)
    requires Inv(w.book) && Conserved(w) && TakesNothingBack(w, a)
    ensures Conserved(Apply(w, a))
  {
    hide Inv;
    hide ReconcileOne;
    match a
    case NewIntent(i) =>
      var x := i.(cumExecQty := 0.0, state := Placed);
      assert (w.intents + [x])[..|w.intents|] == w.intents;
    case Poll(k, r) =>
      StepConserves(w, k, r);
  }

  lemma NoActions()
    ensures Trace([]) == EMPTY_WORLD
  {
  }

  lemma TraceStep(actions: seq<Action>, a: Action)
    ensures Trace(actions + [a]) == Apply(Trace(actions), a)
  {
    assert (actions + [a])[..|actions|] == actions;
  }

  const BUY := Intent("bot", "run", "BTCUSDT", EntryIntent, Buy, Some(100.0), None, None, None, false, None, 0.0, None,
                      Placed)

  /** The exchange reports two units filled, and then one as it cancels: the position keeps two, the intent says one. */
  lemma RollbackExample()
    ensures
      var fill, cancel := Reading(PartlyFilled, 2.0, 100.0, 100.0), Reading(OrderCancelled, 1.0, 100.0, 100.0);
      var actions := [NewIntent(BUY), Poll(0, fill)];
      && Conserved(Trace(actions))
      && RollsBack(Trace(actions), 0, cancel)
      && !Conserved(Trace(actions + [Poll(0, cancel)]))
  {
    hide Conserved;
    var fill, cancel := Reading(PartlyFilled, 2.0, 100.0, 100.0), Reading(OrderCancelled, 1.0, 100.0, 100.0);
    var first, actions := [NewIntent(BUY)], [NewIntent(BUY), Poll(0, fill)];
    assert first + [Poll(0, fill)] == actions && [] + [NewIntent(BUY)] == first;
    TraceStep([], NewIntent(BUY));
    TraceStep(first, Poll(0, fill));
    TraceStep(actions, Poll(0, cancel));
    NoActions();
    hide Trace;
    NothingYet();
    ActionConserves(EMPTY_WORLD, NewIntent(BUY));
    ActionConserves(Trace(first), Poll(0, fill));
    StepConserves(Trace(actions), 0, cancel);
  }

  // ----- the worker -----

  /** The intents, the ladders kept with the positions, the ledger and the tallies, updated in place. */
  class Worker {
    const manager: PositionManager
    var ladders: map<nat, Live>
    var intents: seq<Intent>
    ghost var unrouted: real
    ghost var slack: real
    ghost var fullCloses: nat

    ghost function View(): World
      reads this, manager
    {
      World(manager.View(), ladders, intents, unrouted, slack, fullCloses)
    }

    constructor (manager: PositionManager)
      requires Inv(manager.View())
      ensures this.manager == manager && Inv(manager.View()) && intents == [] && ladders == map[]
    {
      this.manager := manager;
      ladders, intents, unrouted, slack, fullCloses := map[], [], 0.0, 0.0, 0;
    }

    /** The first fill opens a position, later ones add to it; without either the fill is dropped. */
    method ReconcileEntryFill(i: Intent, delta: Qty, price: real) returns (ok: bool)
      requires Inv(manager.View())
      modifies this`ladders, manager
      ensures Inv(manager.View())
      ensures Delivered(old(manager.View()), old(ladders), i, EntryRoute(old(manager.View()), i, delta, price), delta,
                        price, manager.View(), ladders, ok)
    {
      hide Inv;
      hide Perform;
      var position := Active(manager.positions, i.runId, i.symbol);
      if position == None && i.cumExecQty == 0.0 {
        ok := OpenFromFill(i, delta, price);
        return;
      } else if position.Some? {
        var r := manager.ApplyPartialFill(position.value, delta, price, true);
        if r.Failure? { return false; }
        AdvanceLadder(position.value, i, delta, price);
      }
      return true;
    }

    /** Opens the position; a DCA base order also activates its ladder, whose levels win. */
    method OpenFromFill(i: Intent, delta: Qty, price: real) returns (ok: bool)
      requires Inv(manager.View())
      requires Active(manager.positions, i.runId, i.symbol) == None && i.cumExecQty == 0.0
      modifies this`ladders, manager
      ensures Inv(manager.View())
      ensures Delivered(old(manager.View()), old(ladders), i, EntryRoute(old(manager.View()), i, delta, price), delta,
                        price, manager.View(), ladders, ok)
    {
      hide Inv;
      hide Perform;
      var sl, tp, state: Option<Live> := i.sl, i.tp, None;
      if i.dca && i.ladder.Some? {
        var base := LiveLadder.ApplyBaseFill(i.ladder.value, price, delta);
        if base.Failure? { return false; }
        state := Some(base.value.state);
        sl, tp := Some(state.value.slPrice), Some(state.value.tpPrice);
      }
      var side := if i.side == Sell then Short else Long;
      var r := manager.OpenPosition(i.botId, i.runId, i.symbol, side, delta, price, sl, tp);
      if r.Failure? { return false; }
      OpenedIsLast(old(manager.View()), OpenOp(i.botId, i.runId, i.symbol, side, delta, price, sl, tp));
      if state.Some? { ladders := ladders[r.value := state.value]; }
      return true;
    }

    /** The next rung of the position's ladder takes the fill, and its levels move the position's. */
    method AdvanceLadder(id: nat, i: Intent, delta: Qty, price: real)
      requires Inv(manager.View())
      modifies this`ladders, manager
      ensures Inv(manager.View())
      ensures Ledgers(manager.View(), ladders)
           == AfterFill(old(manager.View()), old(ladders), i, AddOp(id, delta, price), delta, price)
    {
      hide Inv;
      hide Perform;
      if !i.dca || id !in ladders { return; }
      var state := ladders[id];
      if state.nextSoIndex < 0 { return; }
      var t := LiveLadder.ApplySafetyFill(state, state.nextSoIndex, price, delta);
      if t.exitLevelsChanged {
        ladders := ladders[id := t.state];
        var r := manager.UpdateSLTP(id, Some(Some(t.state.slPrice)), Some(Some(t.state.tpPrice)));
      }
    }

    /** Closes the named or the active position; a ladder ends with its position. */
    method ReconcileExitFill(i: Intent, delta: Qty, price: real) returns (ok: bool)
      requires Inv(manager.View())
      modifies this`ladders, manager
      ensures Inv(manager.View())
      ensures Delivered(old(manager.View()), old(ladders), i, ExitRoute(old(manager.View()), i, delta, price), delta,
                        price, manager.View(), ladders, ok)
    {
      hide Inv;
      hide Perform;
      var target := ExitTarget(manager.View(), i);
      if target == None { return true; }
      var id := target.value;
      var r := manager.ApplyPartialFill(id, delta, price, false);
      if r.Failure? { return false; }
      if id in ladders && id < |manager.positions| {
        var state := ladders[id];
        if state.phase == LiveLadder.LadderActive && manager.positions[id].currentQty <= 0.0 {
          ladders := ladders[id := LiveLadder.CompleteLadder(state)];
        }
      }
      return true;
    }

    /** One intent of the batch; an error leaves everything as it was. */
    method ReconcileIntent(k: nat, r: Reading)
      requires Inv(manager.View()) && k < |intents|
      modifies this, manager
      ensures Inv(manager.View())
      ensures View() == ReconcileOne(old(View()), k, r)
      ensures |intents| == |old(intents)|
    {
      hide Inv;
      hide Routed;
      hide EntryRoute;
      hide ExitRoute;
      hide Rounding;
      var i := intents[k];
      if !Pollable(i) { return; }
      var fillDelta := r.cumExecQty - i.cumExecQty;
      if fillDelta <= 0.0 && r.status != OrderCancelled && r.status != OrderRejected { return; }
      var fillPrice := FillPrice(i, r);
      if fillDelta > 0.0 {
        ghost var before := View();
        ghost var route := RouteOf(before.book, i, fillDelta, fillPrice);
        var ok := true;
        if i.kind == EntryIntent {
          ok := ReconcileEntryFill(i, fillDelta, fillPrice);
        } else if i.kind == ExitIntent {
          ok := ReconcileExitFill(i, fillDelta, fillPrice);
        } else {
          DroppedIsNothing(before.book, before.ladders, i, fillDelta, fillPrice);
        }
        if !ok { return; }
        if route.Drop? {
          DroppedIsNothing(before.book, before.ladders, i, fillDelta, fillPrice);
          unrouted := unrouted + SignedQty(i, fillDelta);
        } else {
          slack := slack + Rounding(before.book, route, fillDelta);
          fullCloses := fullCloses + if FullClose(before.book, route, fillDelta) then 1 else 0;
        }
      }
      intents := intents[k := Progressed(i, r)];
    }

    /** The poll: up to twenty open intents, oldest first; an intent whose order cannot be read is skipped. */
    method ReconcilePlacedIntents(readings: seq<Option<Reading>>)
      requires Inv(manager.View()) && |readings| == |intents|
      modifies this, manager
      ensures Inv(manager.View())
      ensures View() == Sweep(old(View()), readings, 0, 20)
    {
      hide Inv;
      hide ReconcileOne;
      var k, taken := 0, 0;
      ghost var start := View();
      while k < |readings| && taken < 20
        invariant 0 <= k <= |readings| == |intents| && 0 <= taken <= 20
        invariant Inv(manager.View())
        invariant Sweep(View(), readings, k, 20 - taken) == Sweep(start, readings, 0, 20)
        decreases |readings| - k
      {
        if Pollable(intents[k]) {
          if readings[k].Some? { ReconcileIntent(k, readings[k].value); }
          taken := taken + 1;
        }
        k := k + 1;
      }
    }
  }

  /** Ledger and ladders took the routed fill, or refused it and stayed as they were. */
  ghost predicate Delivered(before: Book, ladders: map<nat, Live>, i: Intent, route: Route, delta: Qty, price: real,
                            after: Book, moved: map<nat, Live>, ok: bool)
    requires Inv(before)
  {
    match Routed(before, ladders, i, route, delta, price)
    case Some(ledgers) => ok && Ledgers(after, moved) == ledgers
    case None => !ok && after == before && moved == ladders
  }

  lemma DroppedIsNothing(b: Book, ladders: map<nat, Live>, i: Intent, delta: Qty, price: real)
    requires Inv(b)
    ensures Routed(b, ladders, i, Drop, delta, price) == Some(Ledgers(b, ladders))
  {
  }

  /** A new row is the last one. */
  lemma OpenedIsLast(b: Book, op: Op)
    requires Inv(b) && op.OpenOp? && Perform(b, op).Success?
    ensures |Perform(b, op).value.positions| == |b.positions| + 1
  {
    hide Inv;
  }

  /** Reconcile the next `budget` pollable intents from `k` on. */
  ghost function Sweep(w: World, readings: seq<Option<Reading>>, k: nat, budget: nat): World
    requires Inv(w.book)
    decreases |readings| - k
  {
    if k >= |readings| || k >= |w.intents| || budget == 0 then w
    else if !Pollable(w.intents[k]) then Sweep(w, readings, k + 1, budget)
    else if readings[k] == None then Sweep(w, readings, k + 1, budget - 1)
    else
      ApplyKeepsInv(w, Poll(k, readings[k].value));
      Sweep(ReconcileOne(w, k, readings[k].value), readings, k + 1, budget - 1)
  }

  /** One poll of the worker is a stretch of a run: the sweep ends where polling some intents one by one would. */
  lemma {:induction false} SweepIsARun(actions: seq<Action>, readings: seq<Option<Reading>>, k: nat, budget: nat)
    returns (polls: seq<Action>)
    ensures Sweep(Trace(actions), readings, k, budget) == Trace(actions + polls)
    ensures forall n :: 0 <= n < |polls| ==> polls[n].Poll?
    decreases |readings| - k
  {
    hide Trace;
    hide ReconcileOne;
    polls := [];
    assert actions + [] == actions;
    var w := Trace(actions);
    if k < |readings| && k < |w.intents| && budget > 0 {
      if !Pollable(w.intents[k]) {
        polls := SweepIsARun(actions, readings, k + 1, budget);
      } else if readings[k] == None {
        polls := SweepIsARun(actions, readings, k + 1, budget - 1);
      } else {
        var poll := Poll(k, readings[k].value);
        TraceStep(actions, poll);
        var rest := SweepIsARun(actions + [poll], readings, k + 1, budget - 1);
        polls := [poll] + rest;
        assert actions + polls == actions + [poll] + rest;
      }
    }
  }

  /** A poll in which no order takes reported fills back conserves fills. */
  lemma {:induction false} SweepConserves(w: World, readings: seq<Option<Reading>>, k: nat, budget: nat)
    requires Inv(w.book) && Conserved(w)
    requires forall j :: k <= j < |readings| && readings[j].Some? ==> !RollsBack(w, j, readings[j].value)
    ensures Conserved(Sweep(w, readings, k, budget))
    decreases |readings| - k
  {
    hide Inv;
    hide Conserved;
    hide Perform;
    hide RouteOf;
    if k < |readings| && k < |w.intents| && budget > 0 {
      if !Pollable(w.intents[k]) {
        SweepConserves(w, readings, k + 1, budget);
      } else if readings[k] == None {
        SweepConserves(w, readings, k + 1, budget - 1);
      } else {
        var next := ReconcileOne(w, k, readings[k].value);
        StepConserves(w, k, readings[k].value);
        OthersStay(w, k, readings[k].value);
        SweepConserves(next, readings, k + 1, budget - 1);
      }
    }
  }

  function PollableBetween(intents: seq<Intent>, a: nat, b: nat): nat
    requires a <= b <= |intents|
    decreases b - a
  {
    if a == b then 0 else (if Pollable(intents[a]) then 1 else 0) + PollableBetween(intents, a + 1, b)
  }

  lemma {:induction false} SameBetween(intents: seq<Intent>, others: seq<Intent>, a: nat, b: nat)
    requires a <= b <= |intents| && |others| == |intents| && intents[a..b] == others[a..b]
    ensures PollableBetween(intents, a, b) == PollableBetween(others, a, b)
    decreases b - a
  {
    if a < b {
      assert intents[a] == intents[a..b][0] && others[a] == others[a..b][0];
      assert intents[a + 1..b] == intents[a..b][1..] && others[a + 1..b] == others[a..b][1..];
      SameBetween(intents, others, a + 1, b);
    }
  }

  lemma {:induction false} SweepLeavesEarlier(w: World, readings: seq<Option<Reading>>, k: nat, budget: nat, j: nat)
    requires Inv(w.book) && j < |w.intents| && j < k
    ensures |Sweep(w, readings, k, budget).intents| == |w.intents|
    ensures Sweep(w, readings, k, budget).intents[j] == w.intents[j]
    decreases |readings| - k
  {
    hide Inv;
    hide ReconcileOne;
    if k < |readings| && k < |w.intents| && budget > 0 {
      if !Pollable(w.intents[k]) {
        SweepLeavesEarlier(w, readings, k + 1, budget, j);
      } else if readings[k] == None {
        SweepLeavesEarlier(w, readings, k + 1, budget - 1, j);
      } else {
        ApplyKeepsInv(w, Poll(k, readings[k].value));
        OthersStay(w, k, readings[k].value);
        SweepLeavesEarlier(ReconcileOne(w, k, readings[k].value), readings, k + 1, budget - 1, j);
      }
    }
  }

  /**
   * A poll gives an intent its turn exactly if it is among the first open ones the budget covers and its order can
   * be read; its turn sees it as it was before the poll, and an intent without a turn stays as it was.
   */
  lemma {:induction false} SweepReachesExactly(w: World, readings: seq<Option<Reading>>, k: nat, budget: nat, j: nat)
    returns (v: World)
    requires Inv(w.book) && k <= j < |w.intents|
    ensures Inv(v.book) && |v.intents| == |w.intents| && v.intents[j] == w.intents[j]
    ensures
      var turn := j < |readings| && readings[j].Some? && Pollable(w.intents[j])
                  && PollableBetween(w.intents, k, j) < budget;
      && |Sweep(w, readings, k, budget).intents| == |w.intents|
      && (turn ==> |ReconcileOne(v, j, readings[j].value).intents| == |w.intents|)
      && Sweep(w, readings, k, budget).intents[j]
         == if turn then ReconcileOne(v, j, readings[j].value).intents[j] else w.intents[j]
    decreases |readings| - k
  {
    hide Inv;
    hide ReconcileOne;
    v := w;
    if k < |readings| && budget > 0 {
      if !Pollable(w.intents[k]) || readings[k] == None {
        var rest := if Pollable(w.intents[k]) then budget - 1 else budget;
        if k < j {
          v := SweepReachesExactly(w, readings, k + 1, rest, j);
        } else {
          SweepLeavesEarlier(w, readings, k + 1, rest, j);
        }
      } else {
        ApplyKeepsInv(w, Poll(k, readings[k].value));
        OthersStay(w, k, readings[k].value);
        var next := ReconcileOne(w, k, readings[k].value);
        if k < j {
          SameBetween(w.intents, next.intents, k + 1, j);
          v := SweepReachesExactly(next, readings, k + 1, budget - 1, j);
        } else {
          SweepLeavesEarlier(next, readings, k + 1, budget - 1, j);
        }
      }
    }
  }

  lemma OthersStay(w: World, k: nat, r: Reading)
    requires Inv(w.book)
    ensures
      var next := ReconcileOne(w, k, r);
      |next.intents| == |w.intents| && forall j :: 0 <= j < |w.intents| && j != k ==> next.intents[j] == w.intents[j]
  {
    hide Inv;
    hide Perform;
    hide RouteOf;
  }
}
