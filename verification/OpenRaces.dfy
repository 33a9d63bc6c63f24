/**
 * Opening a position as the two statements it is, a read and an insert: no index of the database stands behind
 * the guard, so other statements may come between them.
 */
module OpenRaces {
  import opened Wrappers
  import opened PositionLedger

  /** The book, and the opens that have read that there is none yet and are about to insert. */
  datatype State = State(book: Book, pending: map<nat, Op>)

  datatype Step =
    | Read(call: nat, op: Op)
    | Insert(call: nat)
    | Other(op: Op)

  const NOTHING_YET := State(EMPTY, map[])

  function Apply(s: State, step: Step): State
    requires Inv(s.book)
  {
    match step
    case Read(call, op) =>
      if op.OpenOp? && call !in s.pending && FindOpen(s.book.positions, op.botId, op.symbol) == None
      then s.(pending := s.pending[call := op]) else s
    case Insert(call) =>
      if call in s.pending && s.pending[call].OpenOp?
      then State(Inserted(s.book, s.pending[call]), s.pending - {call}) else s
    case Other(op) =>
      if !op.OpenOp? && Perform(s.book, op).Success? then s.(book := Perform(s.book, op).value) else s
  }

  lemma StepKeepsInv(s: State, step: Step)
    requires Inv(s.book)
    ensures Inv(Apply(s, step).book)
  {
    hide Inv;
    hide Inserted;
    hide FindOpen;
    match step
    case Read(_, _) =>
    case Insert(call) =>
      if call in s.pending && s.pending[call].OpenOp? { InsertKeepsInv(s.book, s.pending[call]); }
    case Other(op) =>
      if Perform(s.book, op).Success? { PerformKeepsInv(s.book, op); }
  }

  /** Under any interleaving each row still matches its events, so what is proved of single rows still holds. */
  function Run(steps: seq<Step>): (s: State)
    ensures Inv(s.book)
  {
    if steps == [] then NOTHING_YET
    else
      StepKeepsInv(Run(steps[..|steps| - 1]), steps[|steps| - 1]);
      Apply(Run(steps[..|steps| - 1]), steps[|steps| - 1])
  }

  /** Without interference the two statements are the operation of the ledger. */
  lemma UndisturbedOpen(s: State, call: nat, op: Op)
    requires Inv(s.book) && op.OpenOp? && call !in s.pending && FindOpen(s.book.positions, op.botId, op.symbol) == None
    ensures Inv(Apply(s, Read(call, op)).book)
    ensures Perform(s.book, op) == Success(Apply(Apply(s, Read(call, op)), Insert(call)).book)
  {
    hide Inv;
    hide FindOpen;
  }

  /** The step inserts a row beside one that was opened since the read. */
  predicate Collides(s: State, step: Step) {
    && step.Insert? && step.call in s.pending
    && var op := s.pending[step.call];
       op.OpenOp? && FindOpen(s.book.positions, op.botId, op.symbol).Some?
  }

  lemma InsertedOnce(ps: seq<Position>, p: Position)
    requires OneOpen(ps) && p.open
    ensures OneOpen(ps + [p]) <==> FindOpen(ps, p.botId, p.symbol) == None
  {
    var all := ps + [p];
    var existing := FindOpen(ps, p.botId, p.symbol);
    if existing.Some? {
      var i := existing.value;
      assert all[i] == ps[i] && all[|ps|] == p && all[i].open && all[|ps|].open;
    }
    hide FindOpen;
  }

  /** Over every run: a step leaves two positions open on one symbol exactly if it is such an insert. */
  lemma StepKeepsOneOpenExactly(steps: seq<Step>, step: Step)
    requires OneOpen(Run(steps).book.positions)
    ensures OneOpen(Apply(Run(steps), step).book.positions) <==> !Collides(Run(steps), step)
  {
    hide Run;
    var s := Run(steps);
    hide Inv;
    match step
    case Read(_, _) =>
    case Insert(call) =>
      if call in s.pending && s.pending[call].OpenOp? {
        var op := s.pending[call];
        InsertedOnce(s.book.positions, Fresh(op.botId, op.runId, op.symbol, op.side, op.qty, op.price, op.sl, op.tp));
        hide FindOpen;
        hide OneOpen;
      }
    case Other(op) =>
      if Perform(s.book, op).Success? { StepKeepsOneOpen(s.book, op); }
  }

  ghost predicate CollisionFree(steps: seq<Step>) {
    forall n :: 0 <= n < |steps| ==> !Collides(Run(steps[..n]), steps[n])
  }

  /** So runs without one, as a unique index would enforce, keep one open position per bot and symbol throughout. */
  lemma {:induction false} CollisionFreeRuns(steps: seq<Step>)
    requires CollisionFree(steps)
    ensures OneOpen(Run(steps).book.positions)
  {
    hide OneOpen;
    hide Collides;
    hide Apply;
    hide Inv;
    if steps == [] {
      assert OneOpen([]) by { NoRows(); }
      assert Run([]) == NOTHING_YET;
    } else {
      var before, last := steps[..|steps| - 1], steps[|steps| - 1];
      assert forall n :: 0 <= n < |before| ==> before[..n] == steps[..n];
      CollisionFreeRuns(before);
      StepKeepsOneOpenExactly(before, last);
    }
  }

  lemma NoRows()
    ensures OneOpen([])
  {
  }

  /** Two opens that both read before either inserts leave two open positions. */
  lemma DoubleOpenExample(op: Op)
    requires op.OpenOp?
    ensures !OneOpen(Run([Read(0, op), Read(1, op), Insert(0), Insert(1)]).book.positions)
  {
    assert Run([]) == NOTHING_YET;
    NoRowsOpen(op);
    hide Run;
    hide FindOpen;
    hide Inserted;
    Extend([], Read(0, op));
    Extend([] + [Read(0, op)], Read(1, op));
    var read := [] + [Read(0, op)] + [Read(1, op)];
    assert Run(read) == State(EMPTY, map[0 := op, 1 := op]);
    Extend(read, Insert(0));
    Extend(read + [Insert(0)], Insert(1));
    assert Run(read + [Insert(0)]) == State(Inserted(EMPTY, op), map[1 := op]);
    assert [Read(0, op), Read(1, op), Insert(0), Insert(1)] == read + [Insert(0)] + [Insert(1)];
    InsertedTwice(op);
  }

  lemma Extend(steps: seq<Step>, step: Step)
    ensures Run(steps + [step]) == Apply(Run(steps), step)
  {
    hide Apply;
    assert (steps + [step])[..|steps|] == steps;
  }

  lemma NoRowsOpen(op: Op)
    requires op.OpenOp?
    ensures FindOpen(EMPTY.positions, op.botId, op.symbol) == None
  {
  }

  lemma InsertedTwice(op: Op)
    requires op.OpenOp?
    ensures !OneOpen(Inserted(Inserted(EMPTY, op), op).positions)
  {
    var ps := Inserted(Inserted(EMPTY, op), op).positions;
    assert |ps| == 2 && ps[0].open && ps[1].open && ps[0].botId == ps[1].botId && ps[0].symbol == ps[1].symbol;
  }
}
