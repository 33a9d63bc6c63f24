/** The position ledger (`positionManager.ts`): rows updated in place, and an append-only event log beside them. */
module PositionLedger {
  import opened Wrappers
  import opened Market
  import opened Reals

  /** Traded quantities are positive. */
  type Qty = x: real | x > 0.0 witness 1.0

  /** Quantities closer than this count as equal. */
  const TOLERANCE := 0.000000000001

  datatype Position = Position(
    botId: string,
    runId: string,
    symbol: string,
    side: Side,
    open: bool,
    entryQty: real,
    avgEntryPrice: real,
    costBasis: real,
    currentQty: real,
    realisedPnl: real,
    sl: Option<real>,
    tp: Option<real>
  )

  datatype EventKind = Opened | Added | PartlyClosed | FullyClosed | SlMoved | TpMoved

  datatype Snapshot = Snapshot(
    avgEntryPrice: real,
    currentQty: real,
    costBasis: real,
    realisedPnl: real,
    sl: Option<real>,
    tp: Option<real>
  )

  datatype Event = Event(
    positionId: nat,
    kind: EventKind,
    qty: real,
    price: Option<real>,
    realisedPnl: real,
    snapshot: Snapshot
  )

  datatype Error = AlreadyOpen(existing: nat) | NotFound | NotOpen | ExceedsRemaining(remaining: real)

  datatype Book = Book(positions: seq<Position>, events: seq<Event>)

  function SnapshotOf(p: Position): Snapshot {
    Snapshot(p.avgEntryPrice, p.currentQty, p.costBasis, p.realisedPnl, p.sl, p.tp)
  }

  function Sign(side: Side): real {
    if side == Long then 1.0 else -1.0
  }

  // ----- operations on one row -----

  function Fresh(botId: string, runId: string, symbol: string, side: Side, qty: Qty, price: real,
                 sl: Option<real>, tp: Option<real>): Position
  {
    Position(botId, runId, symbol, side, true, qty, price, qty * price, qty, 0.0, sl, tp)
  }

  function AddTo(p: Position, qty: Qty, price: real): Position
    requires p.entryQty > 0.0
  {
    var entryQty := p.entryQty + qty;
    var costBasis := p.costBasis + qty * price;
    p.(entryQty := entryQty, costBasis := costBasis, avgEntryPrice := costBasis / entryQty,
       currentQty := p.currentQty + qty)
  }

  predicate TooMuch(p: Position, qty: real) {
    qty > p.currentQty + TOLERANCE
  }

  predicate IsFullClose(p: Position, qty: real) {
    Abs(qty - p.currentQty) < TOLERANCE
  }

  function CloseQty(p: Position, qty: real): real {
    if IsFullClose(p, qty) then p.currentQty else qty
  }

  function ClosePnl(p: Position, qty: real, price: real): real {
    (if p.side == Long then price - p.avgEntryPrice else p.avgEntryPrice - price) * CloseQty(p, qty)
  }

  function CloseOf(p: Position, qty: real, price: real): Position {
    p.(currentQty := if IsFullClose(p, qty) then 0.0 else p.currentQty - qty,
       realisedPnl := p.realisedPnl + ClosePnl(p, qty, price),
       open := !IsFullClose(p, qty))
  }

  /** Outer None leaves a level alone; an inner None clears it. */
  function WithLevels(p: Position, sl: Option<Option<real>>, tp: Option<Option<real>>): Position {
    p.(sl := sl.Else(p.sl), tp := tp.Else(p.tp))
  }

  function CalcUnrealisedPnl(p: Position, mark: real): real {
    if !p.open || p.currentQty == 0.0 then 0.0
    else (if p.side == Long then mark - p.avgEntryPrice else p.avgEntryPrice - mark) * p.currentQty
  }

  // ----- operations on the book -----

  datatype Op =
    | OpenOp(botId: string, runId: string, symbol: string, side: Side, qty: Qty, price: real,
             sl: Option<real>, tp: Option<real>)
    | AddOp(id: nat, qty: Qty, price: real)
    | CloseOp(id: nat, qty: Qty, price: real)
    | LevelsOp(id: nat, newSl: Option<Option<real>>, newTp: Option<Option<real>>)

  /** Some open position of the bot on the symbol. */
  predicate IsOpenFor(p: Position, botId: string, symbol: string) {
    p.open && p.botId == botId && p.symbol == symbol
  }

  function FindOpen(ps: seq<Position>, botId: string, symbol: string): (r: Option<nat>)
    ensures r.Some? ==> r.value < |ps| && IsOpenFor(ps[r.value], botId, symbol)
    ensures r == None ==> forall k :: 0 <= k < |ps| ==> !IsOpenFor(ps[k], botId, symbol)
  {
    if ps == [] then None
    else if IsOpenFor(ps[|ps| - 1], botId, symbol) then Some(|ps| - 1)
    else FindOpen(ps[..|ps| - 1], botId, symbol)
  }

  /** The insert half of an open: the row and its event. */
  function Inserted(b: Book, op: Op): Book
    requires op.OpenOp?
  {
    var p := Fresh(op.botId, op.runId, op.symbol, op.side, op.qty, op.price, op.sl, op.tp);
    Book(b.positions + [p], b.events + [Event(|b.positions|, Opened, op.qty, Some(op.price), 0.0, SnapshotOf(p))])
  }

  function Replace(b: Book, id: nat, p: Position, events: seq<Event>): Book
    requires id < |b.positions|
  {
    Book(b.positions[id := p], b.events + events)
  }

  function LevelEvents(id: nat, p: Position, sl: Option<Option<real>>, tp: Option<Option<real>>): seq<Event> {
    (if sl.Some? then [Event(id, SlMoved, 0.0, sl.value, 0.0, SnapshotOf(p))] else [])
    + (if tp.Some? then [Event(id, TpMoved, 0.0, tp.value, 0.0, SnapshotOf(p))] else [])
  }

  function CloseEvent(id: nat, p: Position, qty: real, price: real): Event {
    Event(id, if IsFullClose(p, qty) then FullyClosed else PartlyClosed, CloseQty(p, qty), Some(price),
          ClosePnl(p, qty, price), SnapshotOf(CloseOf(p, qty, price)))
  }

  /** The book after an operation; a refused one returns its reason and changes nothing. */
  function Perform(b: Book, op: Op): Result<Book, Error>
    requires Inv(b)
  {
    match op
    case OpenOp(botId, _, symbol, _, _, _, _, _) =>
      var existing := FindOpen(b.positions, botId, symbol);
      if existing.Some? then Failure(AlreadyOpen(existing.value)) else Success(Inserted(b, op))
    case AddOp(id, qty, price) =>
      if id >= |b.positions| then Failure(NotFound)
      else if !b.positions[id].open then Failure(NotOpen)
      else
        EntryPositive(b, id);
        var p := AddTo(b.positions[id], qty, price);
        Success(Replace(b, id, p, [Event(id, Added, qty, Some(price), 0.0, SnapshotOf(p))]))
    case CloseOp(id, qty, price) =>
      if id >= |b.positions| then Failure(NotFound)
      else if !b.positions[id].open then Failure(NotOpen)
      else if TooMuch(b.positions[id], qty) then Failure(ExceedsRemaining(b.positions[id].currentQty))
      else
        Success(Replace(b, id, CloseOf(b.positions[id], qty, price), [CloseEvent(id, b.positions[id], qty, price)]))
    case LevelsOp(id, sl, tp) =>
      if id >= |b.positions| then Failure(NotFound)
      else if !b.positions[id].open then Failure(NotOpen)
      else
        var p := WithLevels(b.positions[id], sl, tp);
        Success(Replace(b, id, p, LevelEvents(id, p, sl, tp)))
  }

  // ----- replaying the log -----

  function EventsOf(events: seq<Event>, id: nat): seq<Event> {
    if events == [] then []
    else
      var rest := EventsOf(events[..|events| - 1], id);
      if events[|events| - 1].positionId == id then rest + [events[|events| - 1]] else rest
  }

  /** The numbers of a row as the events alone determine them. */
  datatype Numbers = Numbers(
    open: bool,
    entryQty: real,
    avgEntryPrice: real,
    costBasis: real,
    currentQty: real,
    realisedPnl: real,
    sl: Option<real>,
    tp: Option<real>
  )

  const BLANK := Numbers(false, 0.0, 0.0, 0.0, 0.0, 0.0, None, None)

  function NumbersOf(p: Position): Numbers {
    Numbers(p.open, p.entryQty, p.avgEntryPrice, p.costBasis, p.currentQty, p.realisedPnl, p.sl, p.tp)
  }

  function ReplayOne(side: Side, n: Numbers, e: Event): Numbers {
    match e.kind
    case Opened =>
      var price := e.price.Else(0.0);
      Numbers(true, e.qty, price, e.qty * price, e.qty, 0.0, e.snapshot.sl, e.snapshot.tp)
    case Added =>
      var entryQty := n.entryQty + e.qty;
      var costBasis := n.costBasis + e.qty * e.price.Else(0.0);
      n.(entryQty := entryQty, costBasis := costBasis, currentQty := n.currentQty + e.qty,
         avgEntryPrice := if entryQty == 0.0 then 0.0 else costBasis / entryQty)
    case PartlyClosed =>
      n.(currentQty := n.currentQty - e.qty,
         realisedPnl := n.realisedPnl + ReplayPnl(side, n, e))
    case FullyClosed =>
      n.(open := false, currentQty := 0.0, realisedPnl := n.realisedPnl + ReplayPnl(side, n, e))
    case SlMoved => n.(sl := e.price)
    case TpMoved => n.(tp := e.price)
  }

  function ReplayPnl(side: Side, n: Numbers, e: Event): real {
    (if side == Long then e.price.Else(0.0) - n.avgEntryPrice else n.avgEntryPrice - e.price.Else(0.0)) * e.qty
  }

  function Replay(side: Side, events: seq<Event>): Numbers {
    if events == [] then BLANK
    else ReplayOne(side, Replay(side, events[..|events| - 1]), events[|events| - 1])
  }

  predicate IsClose(e: Event) {
    e.kind == PartlyClosed || e.kind == FullyClosed
  }

  /** Total quantity closed. */
  function Closed(events: seq<Event>): real {
    if events == [] then 0.0
    else Closed(events[..|events| - 1]) + if IsClose(events[|events| - 1]) then events[|events| - 1].qty else 0.0
  }

  /** Cash received for (or, short, paid for) the quantity closed. */
  function Proceeds(events: seq<Event>): real {
    if events == [] then 0.0
    else
      var e := events[|events| - 1];
      Proceeds(events[..|events| - 1]) + if IsClose(e) then e.price.Else(0.0) * e.qty else 0.0
  }

  /** Profit the events record. */
  function RecordedPnl(events: seq<Event>): real {
    if events == [] then 0.0 else RecordedPnl(events[..|events| - 1]) + events[|events| - 1].realisedPnl
  }

  /** What re-averaging over already closed quantity shifts: each ADD moves the average of past closes too. */
  function Drift(side: Side, events: seq<Event>): real {
    if events == [] then 0.0
    else
      var before := events[..|events| - 1];
      Drift(side, before)
      + if events[|events| - 1].kind == Added
        then (Replay(side, events).avgEntryPrice - Replay(side, before).avgEntryPrice) * Closed(before)
        else 0.0
  }

  /** No position is added to after part of it was closed. */
  ghost predicate AddsFirst(events: seq<Event>) {
    forall i, j :: 0 <= i < j < |events| && IsClose(events[i]) ==> events[j].kind != Added
  }

  // ----- the invariant -----

  ghost predicate PositionInv(p: Position, events: seq<Event>) {
    && events != []
    && p.entryQty > 0.0
    && Replay(p.side, events) == NumbersOf(p)
    && events[|events| - 1].snapshot == SnapshotOf(p)
    && p.avgEntryPrice * p.entryQty == p.costBasis
    && p.entryQty - p.currentQty == Closed(events)
    && p.realisedPnl == RecordedPnl(events)
    && p.realisedPnl == Sign(p.side) * (Proceeds(events) - p.avgEntryPrice * Closed(events) + Drift(p.side, events))
    && (!p.open ==> p.currentQty == 0.0)
  }

  ghost predicate Inv(b: Book) {
    && (forall id :: 0 <= id < |b.positions| ==> PositionInv(b.positions[id], EventsOf(b.events, id)))
    && (forall k :: 0 <= k < |b.events| ==> b.events[k].positionId < |b.positions|)
  }

  lemma EventsOfAppend(events: seq<Event>, e: Event, id: nat)
    ensures EventsOf(events + [e], id)
         == if e.positionId == id then EventsOf(events, id) + [e] else EventsOf(events, id)
  {
    assert (events + [e])[..|events|] == events;
  }

  lemma {:induction false} NoEvents(events: seq<Event>, id: nat)
    requires forall k :: 0 <= k < |events| ==> events[k].positionId < id
    ensures EventsOf(events, id) == []
  {
    if events != [] {
      NoEvents(events[..|events| - 1], id);
    }
  }

  /** How one more event changes everything computed from the log. */
  lemma FoldsOfAppend(side: Side, events: seq<Event>, e: Event)
    ensures Replay(side, events + [e]) == ReplayOne(side, Replay(side, events), e)
    ensures Closed(events + [e]) == Closed(events) + if IsClose(e) then e.qty else 0.0
    ensures Proceeds(events + [e]) == Proceeds(events) + if IsClose(e) then e.price.Else(0.0) * e.qty else 0.0
    ensures RecordedPnl(events + [e]) == RecordedPnl(events) + e.realisedPnl
    ensures Drift(side, events + [e]) == Drift(side, events) + if e.kind == Added
      then (Replay(side, events + [e]).avgEntryPrice - Replay(side, events).avgEntryPrice) * Closed(events) else 0.0
  {
    hide ReplayOne;
    assert (events + [e])[..|events|] == events;
    DriftOfAppend(side, events, e);
  }

  lemma DriftOfAppend(side: Side, events: seq<Event>, e: Event)
    ensures Drift(side, events + [e]) == Drift(side, events) + if e.kind == Added
      then (Replay(side, events + [e]).avgEntryPrice - Replay(side, events).avgEntryPrice) * Closed(events) else 0.0
  {
    hide Replay;
    hide Closed;
    var log := events + [e];
    assert log[..|log| - 1] == events && log[|log| - 1] == e;
  }

  lemma OpenKeeps(id: nat, botId: string, runId: string, symbol: string, side: Side, qty: Qty, price: real,
                  sl: Option<real>, tp: Option<real>)
    ensures
      var p := Fresh(botId, runId, symbol, side, qty, price, sl, tp);
      PositionInv(p, [Event(id, Opened, qty, Some(price), 0.0, SnapshotOf(p))])
  {
    var p := Fresh(botId, runId, symbol, side, qty, price, sl, tp);
    var e := Event(id, Opened, qty, Some(price), 0.0, SnapshotOf(p));
    FoldsOfAppend(side, [], e);
    assert [] + [e] == [e];
  }

  lemma AddKeeps(p: Position, events: seq<Event>, qty: Qty, price: real, e: Event)
    requires PositionInv(p, events) && p.open
    requires e == Event(e.positionId, Added, qty, Some(price), 0.0, SnapshotOf(AddTo(p, qty, price)))
    ensures PositionInv(AddTo(p, qty, price), events + [e])
  {
    hide Replay;
    hide Closed;
    hide Proceeds;
    hide RecordedPnl;
    hide Drift;
    var q := AddTo(p, qty, price);
    FoldsOfAppend(p.side, events, e);
    AverageTimesQty(q.costBasis, q.entryQty);
    assert q.entryQty - q.currentQty == p.entryQty - p.currentQty;
    DriftAbsorbs(Sign(p.side), Proceeds(events), p.avgEntryPrice, q.avgEntryPrice, Closed(events),
                 Drift(p.side, events));
  }

  lemma AverageTimesQty(cost: real, qty: real)
    requires qty > 0.0
    ensures cost / qty * qty == cost
  {
  }

  lemma DriftAbsorbs(sign: real, proceeds: real, avg: real, next: real, closed: real, drift: real)
    ensures sign * (proceeds - avg * closed + drift)
         == sign * (proceeds - next * closed + (drift + (next - avg) * closed))
  {
    assert (next - avg) * closed == next * closed - avg * closed;
  }

  lemma CloseKeeps(p: Position, events: seq<Event>, id: nat, qty: Qty, price: real)
    requires PositionInv(p, events) && p.open
    ensures PositionInv(CloseOf(p, qty, price), events + [CloseEvent(id, p, qty, price)])
  {
    hide Replay;
    hide Closed;
    hide Proceeds;
    hide RecordedPnl;
    hide Drift;
    FoldsOfAppend(p.side, events, CloseEvent(id, p, qty, price));
    PnlOfClose(p.side, Proceeds(events), p.avgEntryPrice, Closed(events), Drift(p.side, events), price,
               CloseQty(p, qty));
  }

  lemma PnlOfClose(side: Side, proceeds: real, avg: real, closed: real, drift: real, price: real, c: real)
    ensures Sign(side) * (proceeds - avg * closed + drift) + (if side == Long then price - avg else avg - price) * c
         == Sign(side) * (proceeds + price * c - avg * (closed + c) + drift)
  {
    assert avg * (closed + c) == avg * closed + avg * c;
    assert (price - avg) * c == price * c - avg * c && (avg - price) * c == avg * c - price * c;
  }

  lemma LevelKeeps(p: Position, q: Position, events: seq<Event>, e: Event)
    requires PositionInv(p, events) && e.qty == 0.0 && e.realisedPnl == 0.0 && e.snapshot == SnapshotOf(q)
    requires (e.kind == SlMoved && q == p.(sl := e.price)) || (e.kind == TpMoved && q == p.(tp := e.price))
    ensures PositionInv(q, events + [e])
  {
    hide Replay;
    hide Closed;
    hide Proceeds;
    hide RecordedPnl;
    hide Drift;
    FoldsOfAppend(p.side, events, e);
  }

  /** Two updates at once log two events, both with the final snapshot. */
  lemma LevelsKeep(p: Position, events: seq<Event>, id: nat, sl: Option<Option<real>>, tp: Option<Option<real>>)
    requires PositionInv(p, events)
    ensures PositionInv(WithLevels(p, sl, tp), events + LevelEvents(id, WithLevels(p, sl, tp), sl, tp))
  {
    hide Replay;
    hide Closed;
    hide Proceeds;
    hide RecordedPnl;
    hide Drift;
    var q := WithLevels(p, sl, tp);
    var evs := LevelEvents(id, q, sl, tp);
    if sl == None && tp == None {
      assert events + evs == events;
    } else if sl == None || tp == None {
      LevelKeeps(p, q, events, evs[0]);
      assert events + evs == events + [evs[0]];
    } else {
      var mid := p.(sl := sl.value);
      FoldsOfAppend(p.side, events, evs[0]);
      FoldsOfAppend(p.side, events + [evs[0]], evs[1]);
      assert events + evs == events + [evs[0]] + [evs[1]];
    }
  }

  // ----- whole runs -----

  lemma PerformKeepsOthers(b: Book, id: nat, events: seq<Event>, k: nat)
    requires forall j :: 0 <= j < |events| ==> events[j].positionId == id
    requires k != id
    ensures EventsOf(b.events + events, k) == EventsOf(b.events, k)
    decreases |events|
  {
    if events == [] {
      assert b.events + events == b.events;
    } else {
      var rest, last := events[..|events| - 1], events[|events| - 1];
      PerformKeepsOthers(b, id, rest, k);
      EventsOfAppend(b.events + rest, last, k);
      assert b.events + events == b.events + rest + [last];
    }
  }

  lemma {:induction false} OwnEvents(log: seq<Event>, id: nat, events: seq<Event>)
    requires forall j :: 0 <= j < |events| ==> events[j].positionId == id
    ensures EventsOf(log + events, id) == EventsOf(log, id) + events
    decreases |events|
  {
    if events == [] {
      assert log + events == log;
    } else {
      var rest, last := events[..|events| - 1], events[|events| - 1];
      OwnEvents(log, id, rest);
      EventsOfAppend(log + rest, last, id);
      assert log + events == log + rest + [last];
    }
  }

  /** Replacing one row and appending its events leaves every other row's log alone. */
  lemma ReplaceKeeps(b: Book, id: nat, p: Position, events: seq<Event>)
    requires Inv(b) && id < |b.positions|
    requires forall j :: 0 <= j < |events| ==> events[j].positionId == id
    requires PositionInv(p, EventsOf(b.events, id) + events)
    ensures Inv(Replace(b, id, p, events))
  {
    hide PositionInv;
    var c := Replace(b, id, p, events);
    OwnEvents(b.events, id, events);
    forall k | 0 <= k < |c.positions|
      ensures PositionInv(c.positions[k], EventsOf(c.events, k))
    {
      if k != id { PerformKeepsOthers(b, id, events, k); }
    }
  }

  /** A new row is consistent, whatever else is open. */
  lemma InsertKeepsInv(b: Book, op: Op)
    requires Inv(b) && op.OpenOp?
    ensures Inv(Inserted(b, op))
  {
    hide PositionInv;
    var c, id := Inserted(b, op), |b.positions|;
    var e := c.events[|b.events|];
    assert c.events == b.events + [e];
    OpenKeeps(id, op.botId, op.runId, op.symbol, op.side, op.qty, op.price, op.sl, op.tp);
    NoEvents(b.events, id);
    forall k | 0 <= k < |c.positions|
      ensures PositionInv(c.positions[k], EventsOf(c.events, k))
    {
      EventsOfAppend(b.events, e, k);
      if k == id { assert [] + [e] == [e]; }
    }
  }

  lemma PerformKeepsInv(b: Book, op: Op)
    requires Inv(b) && Perform(b, op).Success?
    ensures Inv(Perform(b, op).value)
  {
    hide PositionInv;
    match op
    case OpenOp(_, _, _, _, _, _, _, _) => InsertKeepsInv(b, op);
    case AddOp(id, qty, price) =>
      var p := b.positions[id];
      EntryPositive(b, id);
      var e := Event(id, Added, qty, Some(price), 0.0, SnapshotOf(AddTo(p, qty, price)));
      AddKeeps(p, EventsOf(b.events, id), qty, price, e);
      ReplaceKeeps(b, id, AddTo(p, qty, price), [e]);
    case CloseOp(id, qty, price) =>
      CloseKeeps(b.positions[id], EventsOf(b.events, id), id, qty, price);
      ReplaceKeeps(b, id, CloseOf(b.positions[id], qty, price), [CloseEvent(id, b.positions[id], qty, price)]);
    case LevelsOp(id, sl, tp) =>
      var q := WithLevels(b.positions[id], sl, tp);
      LevelsKeep(b.positions[id], EventsOf(b.events, id), id, sl, tp);
      ReplaceKeeps(b, id, q, LevelEvents(id, q, sl, tp));
  }

  lemma EntryPositive(b: Book, id: nat)
    requires Inv(b) && id < |b.positions|
    ensures b.positions[id].entryQty > 0.0
  {
    assert PositionInv(b.positions[id], EventsOf(b.events, id));
  }

  const EMPTY := Book([], [])

  /** The book after any sequence of operations, refused ones included. */
  function Ledger(ops: seq<Op>): (b: Book)
    ensures Inv(b)
  {
    if ops == [] then EMPTY
    else
      var b := Ledger(ops[..|ops| - 1]);
      var r := Perform(b, ops[|ops| - 1]);
      if r.Success? then
        PerformKeepsInv(b, ops[|ops| - 1]);
        r.value
      else b
  }

  /** Folding a position's events rebuilds its row; the running totals agree with the log. */
  lemma ReplayRebuildsRow(ops: seq<Op>, id: nat)
    requires id < |Ledger(ops).positions|
    ensures
      var p, events := Ledger(ops).positions[id], EventsOf(Ledger(ops).events, id);
      && Replay(p.side, events) == NumbersOf(p)
      && p.avgEntryPrice * p.entryQty == p.costBasis
      && p.entryQty - p.currentQty == Closed(events)
      && p.realisedPnl == RecordedPnl(events)
      && events != []
      && var last := events[|events| - 1].snapshot;
         && last.avgEntryPrice == p.avgEntryPrice && last.currentQty == p.currentQty
         && last.costBasis == p.costBasis && last.realisedPnl == p.realisedPnl
         && last.sl == p.sl && last.tp == p.tp
  {
    hide Replay;
    hide Closed;
    hide Proceeds;
    hide RecordedPnl;
    hide Drift;
    hide Ledger;
    assert PositionInv(Ledger(ops).positions[id], EventsOf(Ledger(ops).events, id));
  }

  /**
   * The cash-flow law for every order of adds and closes: a closed position's profit is what the exits
   * brought minus what the entries cost (negated for shorts), corrected by the drift of late adds. So profit
   * equals cash flow exactly when the drift is zero.
   */
  lemma CashFlowLaw(ops: seq<Op>, id: nat)
    requires id < |Ledger(ops).positions| && !Ledger(ops).positions[id].open
    ensures
      var p, events := Ledger(ops).positions[id], EventsOf(Ledger(ops).events, id);
      && p.realisedPnl == Sign(p.side) * (Proceeds(events) - p.costBasis + Drift(p.side, events))
      && (p.realisedPnl == Sign(p.side) * (Proceeds(events) - p.costBasis) <==> Drift(p.side, events) == 0.0)
  {
    hide Replay;
    hide Closed;
    hide Proceeds;
    hide RecordedPnl;
    hide Drift;
    hide Ledger;
    assert PositionInv(Ledger(ops).positions[id], EventsOf(Ledger(ops).events, id));
  }

  lemma {:induction false} NothingClosed(events: seq<Event>)
    requires forall i :: 0 <= i < |events| ==> !IsClose(events[i])
    ensures Closed(events) == 0.0
  {
    if events != [] {
      NothingClosed(events[..|events| - 1]);
    }
  }

  /** There is no drift when every add precedes every close. */
  lemma {:induction false} AddsFirstMeansNoDrift(side: Side, events: seq<Event>)
    requires AddsFirst(events)
    ensures Drift(side, events) == 0.0
  {
    if events != [] {
      AddsFirstMeansNoDrift(side, events[..|events| - 1]);
      if events[|events| - 1].kind == Added {
        NothingClosed(events[..|events| - 1]);
      }
    }
  }

  /** A late add drifts exactly if its price differs from the average at that moment. */
  lemma LateAddDrifts(p: Position, events: seq<Event>, qty: Qty, price: real, e: Event)
    requires PositionInv(p, events) && p.open && Closed(events) > 0.0
    requires e == Event(e.positionId, Added, qty, Some(price), 0.0, SnapshotOf(AddTo(p, qty, price)))
    ensures Drift(p.side, events + [e]) == Drift(p.side, events) <==> price == p.avgEntryPrice
  {
    hide Replay;
    hide Closed;
    hide Proceeds;
    hide RecordedPnl;
    hide Drift;
    var q := AddTo(p, qty, price);
    AddKeeps(p, events, qty, price, e);
    FoldsOfAppend(p.side, events, e);
    AverageMoves(p.avgEntryPrice, p.entryQty, q.avgEntryPrice, qty, price);
    ProductIsZero(q.avgEntryPrice - p.avgEntryPrice, Closed(events));
  }

  lemma AverageMoves(avg: real, n: real, next: real, m: real, price: real)
    requires n > 0.0 && m > 0.0 && next * (n + m) == avg * n + m * price
    ensures next == avg <==> price == avg
  {
    assert (next - avg) * (n + m) == (price - avg) * m;
    ProductIsZero(next - avg, n + m);
    ProductIsZero(price - avg, m);
  }

  lemma ProductIsZero(x: real, y: real)
    requires y > 0.0
    ensures x * y == 0.0 <==> x == 0.0
  {
  }

  /** A row is sound when it is open exactly while something remains. */
  predicate Sound(p: Position) {
    p.open <==> p.currentQty > 0.0
  }

  /**
   * An accepted close keeps a sound row sound exactly unless the quantity exceeds the remainder by the whole
   * tolerance: that one is neither refused nor a full close, and leaves the row open below zero.
   */
  lemma CloseStaysSound(p: Position, qty: Qty, price: real)
    requires p.open && Sound(p) && !TooMuch(p, qty)
    ensures Sound(CloseOf(p, qty, price)) <==> qty != p.currentQty + 0.000000000001
  {
  }

  ghost predicate AllSound(b: Book) {
    forall id :: 0 <= id < |b.positions| ==> Sound(b.positions[id])
  }

  /** The operation closes exactly the remainder and the whole tolerance of an open position. */
  predicate Overdraws(b: Book, op: Op) {
    && op.CloseOp? && op.id < |b.positions| && b.positions[op.id].open
    && op.qty == b.positions[op.id].currentQty + TOLERANCE
  }

  /** No operation of the run overdraws the book it meets. */
  ghost predicate NeverOverdraws(ops: seq<Op>) {
    forall n :: 0 <= n < |ops| ==> !Overdraws(Ledger(ops[..n]), ops[n])
  }

  /** After every operation of the run, a row is open exactly while something remains. */
  ghost predicate SoundThroughout(ops: seq<Op>) {
    forall n :: 0 <= n <= |ops| ==> AllSound(Ledger(ops[..n]))
  }

  /** An operation keeps a sound book sound exactly unless it overdraws a position. */
  lemma StepStaysSound(b: Book, op: Op)
    requires Inv(b) && AllSound(b) && Perform(b, op).Success?
    ensures AllSound(Perform(b, op).value) <==> !Overdraws(b, op)
  {
    hide PositionInv;
    var c := Perform(b, op).value;
    match op
    case OpenOp(_, _, _, _, _, _, _, _) =>
    case AddOp(id, _, _) =>
    case LevelsOp(id, _, _) =>
    case CloseOp(id, qty, price) =>
      CloseStaysSound(b.positions[id], qty, price);
      assert c.positions[id] == CloseOf(b.positions[id], qty, price);
      if Overdraws(b, op) {
        assert !Sound(c.positions[id]);
      }
  }

  lemma LedgerStep(ops: seq<Op>)
    requires ops != []
    ensures
      var b, op := Ledger(ops[..|ops| - 1]), ops[|ops| - 1];
      Ledger(ops) == if Perform(b, op).Success? then Perform(b, op).value else b
  {
    hide Perform;
    hide Inv;
  }

  lemma RefusedDoesNotOverdraw(b: Book, op: Op)
    requires Inv(b) && Perform(b, op).Failure?
    ensures !Overdraws(b, op)
  {
    hide Inv;
  }

  /** Over every run: all rows are sound after every operation exactly if none of them overdraws. */
  lemma {:induction false} SoundExactlyUnlessOverdrawn(ops: seq<Op>)
    ensures SoundThroughout(ops) <==> NeverOverdraws(ops)
  {
    hide AllSound;
    hide Overdraws;
    hide Ledger;
    hide Perform;
    hide Inv;
    if ops == [] {
      assert ops[..0] == [];
      assert AllSound(Ledger([])) by { NothingOpen(); }
    } else {
      var before, op := ops[..|ops| - 1], ops[|ops| - 1];
      assert forall n :: 0 <= n <= |before| ==> before[..n] == ops[..n];
      assert ops[..|ops|] == ops && before[..|before|] == before;
      SoundExactlyUnlessOverdrawn(before);
      LedgerStep(ops);
      if SoundThroughout(before) && Perform(Ledger(before), op).Success? {
        StepStaysSound(Ledger(before), op);
      }
      if Perform(Ledger(before), op).Failure? {
        RefusedDoesNotOverdraw(Ledger(before), op);
      }
      assert SoundThroughout(ops) <==> SoundThroughout(before) && AllSound(Ledger(ops));
      assert NeverOverdraws(ops) <==> NeverOverdraws(before) && !Overdraws(Ledger(before), op);
    }
  }

  lemma NothingOpen()
    ensures AllSound(Ledger([]))
  {
  }

  /** The run that opens one unit and closes one unit and the tolerance leaves the row open below zero. */
  lemma OverdrawnExample()
    ensures
      var ops := [OpenOp("bot", "run", "BTCUSDT", Long, 1.0, 100.0, None, None), CloseOp(0, 1.0 + TOLERANCE, 100.0)];
      var b := Ledger(ops);
      && |b.positions| == 1
      && b.positions[0].open && b.positions[0].currentQty < 0.0
      && !NeverOverdraws(ops)
  {
    var open := OpenOp("bot", "run", "BTCUSDT", Long, 1.0, 100.0, None, None);
    var ops := [open, CloseOp(0, 1.0 + TOLERANCE, 100.0)];
    assert ops[..1] == [open];
    var p := FirstOpen(open);
    hide Ledger;
    hide Inv;
    LedgerStep(ops);
    OverdrawnRow(p, 100.0);
    assert Overdraws(Ledger(ops[..1]), ops[1]);
  }

  lemma FirstOpen(op: Op) returns (p: Position)
    requires op.OpenOp?
    ensures Ledger([op]).positions == [p] && p.open && p.currentQty == op.qty
  {
    assert [op][..0] == [];
    NothingDone();
    hide Inv;
    LedgerStep([op]);
    p := Fresh(op.botId, op.runId, op.symbol, op.side, op.qty, op.price, op.sl, op.tp);
  }

  lemma OverdrawnRow(p: Position, price: real)
    requires p.open && p.currentQty == 1.0
    ensures
      var qty := 1.0 + TOLERANCE;
      !TooMuch(p, qty) && CloseOf(p, qty, price).open && CloseOf(p, qty, price).currentQty < 0.0
  {
  }

  const DRIFT_OPS := [
    OpenOp("bot", "run", "BTCUSDT", Long, 2.0, 100.0, None, None),
    CloseOp(0, 1.0, 100.0),
    AddOp(0, 1.0, 200.0),
    CloseOp(0, 2.0, 200.0)
  ]

  /**
   * A run whose profit is not its cash flow: two units bought at 100, one sold at 100, one added at 200, the
   * rest sold at 200. The exits bring 500 and the entries cost 400, but the row records more than the difference.
   */
  lemma DriftExample()
    ensures
      var b := Ledger(DRIFT_OPS);
      && |b.positions| == 1 && !b.positions[0].open
      && Proceeds(EventsOf(b.events, 0)) == 500.0 && b.positions[0].costBasis == 400.0
      && b.positions[0].realisedPnl > 100.0
      && Drift(Long, EventsOf(b.events, 0)) != 0.0
  {
    hide Ledger;
    var b := DriftRun();
    DriftProceeds(b.events);
    CashFlowLaw(DRIFT_OPS, 0);
  }

  /** The book after the four operations. */
  lemma DriftRun() returns (b: Book)
    ensures b == Ledger(DRIFT_OPS) && |b.positions| == 1 && |b.events| == 4
    ensures b.positions[0].side == Long && !b.positions[0].open && b.positions[0].costBasis == 400.0
    ensures b.positions[0].realisedPnl > 100.0
    ensures b.events[0].kind == Opened && b.events[2].kind == Added
    ensures b.events[1].kind == PartlyClosed && b.events[1].qty == 1.0 && b.events[1].price == Some(100.0)
    ensures b.events[3].kind == FullyClosed && b.events[3].qty == 2.0 && b.events[3].price == Some(200.0)
    ensures forall k :: 0 <= k < 4 ==> b.events[k].positionId == 0
  {
    hide Inv;
    var ops := DRIFT_OPS;
    assert ops[..0] == [] && ops[..1][..0] == ops[..0] && ops[..2][..1] == ops[..1] && ops[..3][..2] == ops[..2];
    assert Ledger(ops[..0]) == EMPTY by { NothingDone(); }
    hide Ledger;
    LedgerStep(ops[..1]);
    LedgerStep(ops[..2]);
    var p := Ledger(ops[..2]).positions[0];
    assert p.avgEntryPrice == 100.0 && p.currentQty == 1.0 && p.realisedPnl == 0.0 && p.costBasis == 200.0;
    LedgerStep(ops[..3]);
    var q := Ledger(ops[..3]).positions[0];
    assert q.avgEntryPrice == 400.0 / 3.0 && q.currentQty == 2.0;
    LedgerStep(ops);
    b := Ledger(ops);
  }

  lemma NothingDone()
    ensures Ledger([]) == EMPTY
  {
  }

  lemma NoProceeds()
    ensures Proceeds([]) == 0.0
  {
  }

  lemma DriftProceeds(events: seq<Event>)
    requires |events| == 4 && forall k :: 0 <= k < 4 ==> events[k].positionId == 0
    requires events[0].kind == Opened && events[2].kind == Added
    requires events[1].kind == PartlyClosed && events[1].qty == 1.0 && events[1].price == Some(100.0)
    requires events[3].kind == FullyClosed && events[3].qty == 2.0 && events[3].price == Some(200.0)
    ensures EventsOf(events, 0) == events && Proceeds(events) == 500.0
  {
    hide Replay;
    hide ReplayOne;
    hide Drift;
    hide Closed;
    hide RecordedPnl;
    hide Proceeds;
    assert Proceeds([]) == 0.0 by { NoProceeds(); }
    OwnEvents([], 0, events);
    assert [] + events == events && EventsOf([], 0) == [];
    assert events[..3] + [events[3]] == events && events[..2] + [events[2]] == events[..3];
    assert events[..1] + [events[1]] == events[..2] && [] + [events[0]] == events[..1];
    FoldsOfAppend(Long, [], events[0]);
    FoldsOfAppend(Long, events[..1], events[1]);
    FoldsOfAppend(Long, events[..2], events[2]);
    FoldsOfAppend(Long, events[..3], events[3]);
  }

  /** Closing at the mark moves profit from unrealised to realised and changes nothing else. */
  lemma ClosingAtMarkConservesEquity(p: Position, qty: Qty, mark: real)
    requires p.open && Sound(p) && !TooMuch(p, qty)
    ensures
      var q := CloseOf(p, qty, mark);
      q.realisedPnl + CalcUnrealisedPnl(q, mark) == p.realisedPnl + CalcUnrealisedPnl(p, mark)
  {
    var gain := if p.side == Long then mark - p.avgEntryPrice else p.avgEntryPrice - mark;
    if !IsFullClose(p, qty) {
      assert gain * (p.currentQty - qty) == gain * p.currentQty - gain * qty;
    }
  }

  /** No bot has two positions open on one symbol. */
  ghost predicate OneOpen(ps: seq<Position>) {
    forall i, j :: 0 <= i < j < |ps| && ps[i].open && ps[j].open ==>
      ps[i].botId != ps[j].botId || ps[i].symbol != ps[j].symbol
  }

  lemma StepKeepsOneOpen(b: Book, op: Op)
    requires Inv(b) && OneOpen(b.positions) && Perform(b, op).Success?
    ensures OneOpen(Perform(b, op).value.positions)
  {
    hide PositionInv;
  }

  /** What the guard of `openPosition` is for: over every run, one open position per bot and symbol. */
  lemma {:induction false} OneOpenPerSymbol(ops: seq<Op>)
    ensures OneOpen(Ledger(ops).positions)
  {
    hide Inv;
    hide Perform;
    if ops == [] {
      assert OneOpen([]);
      NothingDone();
    } else {
      hide Ledger;
      OneOpenPerSymbol(ops[..|ops| - 1]);
      LedgerStep(ops);
      if Perform(Ledger(ops[..|ops| - 1]), ops[|ops| - 1]).Success? {
        StepKeepsOneOpen(Ledger(ops[..|ops| - 1]), ops[|ops| - 1]);
      }
    }
  }

  // ----- the store -----

  class PositionManager {
    var positions: seq<Position>
    var events: seq<Event>

    function View(): Book
      reads this
    {
      Book(positions, events)
    }

    constructor ()
      ensures View() == EMPTY && Inv(View())
    {
      positions, events := [], [];
    }

    /** Opens a position unless the bot already has one open on the symbol. */
    method OpenPosition(botId: string, runId: string, symbol: string, side: Side, qty: Qty, price: real,
                        sl: Option<real>, tp: Option<real>) returns (r: Result<nat, Error>)
      requires Inv(View())
      modifies this
      ensures Outcome(old(View()), OpenOp(botId, runId, symbol, side, qty, price, sl, tp), View(), r)
      ensures r.Success? ==> r.value == |old(positions)|
    {
      hide PositionInv;
      hide Inv;
      PerformAll(OpenOp(botId, runId, symbol, side, qty, price, sl, tp));
      var existing := FindOpen(positions, botId, symbol);
      if existing.Some? { return Failure(AlreadyOpen(existing.value)); }
      var costBasis := qty * price;
      var p := Position(botId, runId, symbol, side, true, qty, price, costBasis, qty, 0.0, sl, tp);
      var id := |positions|;
      positions := positions + [p];
      events := events + [Event(id, Opened, qty, Some(price), 0.0, SnapshotOf(p))];
      return Success(id);
    }

    /** Averages in. */
    method AddToPosition(id: nat, qty: Qty, price: real) returns (r: Result<nat, Error>)
      requires Inv(View())
      modifies this
      ensures Outcome(old(View()), AddOp(id, qty, price), View(), r)
    {
      hide PositionInv;
      hide Inv;
      PerformAll(AddOp(id, qty, price));
      if id >= |positions| { return Failure(NotFound); }
      var pos := positions[id];
      if !pos.open { return Failure(NotOpen); }
      EntryPositive(View(), id);
      var addCost := qty * price;
      var newEntryQty := pos.entryQty + qty;
      var newCostBasis := pos.costBasis + addCost;
      var newAvgEntry := newCostBasis / newEntryQty;
      var updated := pos.(entryQty := newEntryQty, avgEntryPrice := newAvgEntry, costBasis := newCostBasis,
                          currentQty := pos.currentQty + qty);
      positions := positions[id := updated];
      events := events + [Event(id, Added, qty, Some(price), 0.0, SnapshotOf(updated))];
      return Success(id);
    }

    /** Closes partly or, within the tolerance, fully. */
    method ClosePosition(id: nat, qty: Qty, price: real) returns (r: Result<nat, Error>)
      requires Inv(View())
      modifies this
      ensures Outcome(old(View()), CloseOp(id, qty, price), View(), r)
    {
      hide PositionInv;
      hide Inv;
      PerformAll(CloseOp(id, qty, price));
      if id >= |positions| { return Failure(NotFound); }
      var pos := positions[id];
      if !pos.open { return Failure(NotOpen); }
      if qty > pos.currentQty + TOLERANCE { return Failure(ExceedsRemaining(pos.currentQty)); }
      var isFullClose := Abs(qty - pos.currentQty) < TOLERANCE;
      var closeQty := if isFullClose then pos.currentQty else qty;
      var priceDiff := if pos.side == Long then price - pos.avgEntryPrice else pos.avgEntryPrice - price;
      var eventPnl := priceDiff * closeQty;
      var updated := pos.(currentQty := if isFullClose then 0.0 else pos.currentQty - closeQty,
                          realisedPnl := pos.realisedPnl + eventPnl, open := !isFullClose);
      assert updated == CloseOf(pos, qty, price);
      positions := positions[id := updated];
      var kind := if isFullClose then FullyClosed else PartlyClosed;
      events := events + [Event(id, kind, closeQty, Some(price), eventPnl, SnapshotOf(updated))];
      return Success(id);
    }

    /** Moves or clears the levels, logging one event for each level given. */
    method UpdateSLTP(id: nat, sl: Option<Option<real>>, tp: Option<Option<real>>) returns (r: Result<nat, Error>)
      requires Inv(View())
      modifies this
      ensures Outcome(old(View()), LevelsOp(id, sl, tp), View(), r)
    {
      hide PositionInv;
      hide Inv;
      PerformAll(LevelsOp(id, sl, tp));
      if id >= |positions| { return Failure(NotFound); }
      var pos := positions[id];
      if !pos.open { return Failure(NotOpen); }
      var updated := pos;
      if sl.Some? { updated := updated.(sl := sl.value); }
      if tp.Some? { updated := updated.(tp := tp.value); }
      positions := positions[id := updated];
      ghost var before := events;
      if sl.Some? { events := events + [Event(id, SlMoved, 0.0, sl.value, 0.0, SnapshotOf(updated))]; }
      if tp.Some? { events := events + [Event(id, TpMoved, 0.0, tp.value, 0.0, SnapshotOf(updated))]; }
      assert events == before + LevelEvents(id, updated, sl, tp);
      return Success(id);
    }

    /** An entry-side fill adds, an exit-side fill closes. */
    method ApplyPartialFill(id: nat, filledQty: Qty, fillPrice: real, isEntry: bool) returns (r: Result<nat, Error>)
      requires Inv(View())
      modifies this
      ensures
        var op := if isEntry then AddOp(id, filledQty, fillPrice) else CloseOp(id, filledQty, fillPrice);
        Outcome(old(View()), op, View(), r)
    {
      if isEntry {
        r := AddToPosition(id, filledQty, fillPrice);
      } else {
        r := ClosePosition(id, filledQty, fillPrice);
      }
    }

    lemma PerformAll(op: Op)
      requires Inv(View())
      ensures Perform(View(), op).Success? ==> Inv(Perform(View(), op).value)
    {
      if Perform(View(), op).Success? {
        PerformKeepsInv(View(), op);
      }
    }
  }

  /** The store ends as the specification says: changed by an accepted operation, untouched by a refused one. */
  ghost predicate Outcome(before: Book, op: Op, after: Book, r: Result<nat, Error>) {
    && Inv(before) && Inv(after)
    && match Perform(before, op)
       case Success(b) => r.Success? && after == b
       case Failure(e) => r == Failure(e) && after == before
  }
}
