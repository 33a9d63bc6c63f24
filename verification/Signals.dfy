/** Entry signals (`evaluateSignal`): crosses, comparisons and their compositions, evaluated at one bar. */
module Signals {
  import opened Wrappers
  import opened Market
  import opened Indicators

  const MAX_SIGNAL_DEPTH := 5

  datatype SignalRef = SignalRef(block: Block, params: Params)

  /** Signal types; every other type, such as "direct" or "raw", never fires. */
  datatype Kind = And | Or | ConfirmBars | Crossover | Crossunder | Compare | OtherKind

  datatype Op = Gt | Gte | Lt | Lte | Eq | OtherOp

  function KindOf(name: string): Kind {
    if name == "and" then And
    else if name == "or" then Or
    else if name == "confirm_n_bars" then ConfirmBars
    else if name == "crossover" then Crossover
    else if name == "crossunder" then Crossunder
    else if name == "compare" then Compare
    else OtherKind
  }

  function OpOf(name: string): Op {
    if name == "gt" || name == ">" then Gt
    else if name == "gte" || name == ">=" then Gte
    else if name == "lt" || name == "<" then Lt
    else if name == "lte" || name == "<=" then Lte
    else if name == "eq" || name == "==" then Eq
    else OtherOp
  }

  datatype Signal = Signal(
    kind: Kind,
    op: Option<Op>,
    fast: Option<SignalRef>,
    slow: Option<SignalRef>,
    left: Option<SignalRef>,
    right: Option<SignalRef>,
    conditions: seq<Signal>,
    bars: Option<int>
  )

  /** An unknown operator compares false. */
  predicate EvalOp(op: Op, a: real, b: real) {
    match op
    case Gt => a > b
    case Gte => a >= b
    case Lt => a < b
    case Lte => a <= b
    case Eq => a == b
    case OtherOp => false
  }

  function RefAt(lib: Library, ref: SignalRef, candles: seq<Candle>, i: int): Option<real> {
    ValueAt(lib, QueryOf(ref.block, ref.params), candles, i)
  }

  /** A crossing of two values between the previous bar and this one. */
  predicate Crosses(over: bool, prevFast: Option<real>, prevSlow: Option<real>,
                    curFast: Option<real>, curSlow: Option<real>)
  {
    && prevFast.Some? && prevSlow.Some? && curFast.Some? && curSlow.Some?
    && if over then prevFast.value <= prevSlow.value && curFast.value > curSlow.value
       else prevFast.value >= prevSlow.value && curFast.value < curSlow.value
  }

  predicate Compares(op: Op, l: Option<real>, r: Option<real>) {
    l.Some? && r.Some? && EvalOp(op, l.value, r.value)
  }

  predicate LeafFires(lib: Library, s: Signal, i: int, candles: seq<Candle>) {
    if s.kind == Crossover || s.kind == Crossunder then
      && s.fast.Some? && s.slow.Some? && i >= 1
      && Crosses(s.kind == Crossover,
                 RefAt(lib, s.fast.value, candles, i - 1), RefAt(lib, s.slow.value, candles, i - 1),
                 RefAt(lib, s.fast.value, candles, i), RefAt(lib, s.slow.value, candles, i))
    else if s.kind == Compare then
      && s.left.Some? && s.right.Some?
      && Compares(s.op.Else(Gt), RefAt(lib, s.left.value, candles, i), RefAt(lib, s.right.value, candles, i))
    else
      false
  }

  /** The evaluator as written: a sub-signal five levels down never fires. */
  predicate Fires(lib: Library, s: Signal, i: int, candles: seq<Candle>, depth: nat)
    decreases s
  {
    if depth >= MAX_SIGNAL_DEPTH then false
    else if s.kind == And then
      |s.conditions| > 0 && forall k | 0 <= k < |s.conditions| :: Fires(lib, s.conditions[k], i, candles, depth + 1)
    else if s.kind == Or then
      |s.conditions| > 0 && exists k | 0 <= k < |s.conditions| :: Fires(lib, s.conditions[k], i, candles, depth + 1)
    else if s.kind == ConfirmBars then
      && |s.conditions| == 1
      && i >= s.bars.Else(3) - 1
      && var below := depth + 1;
         forall j | i - s.bars.Else(3) < j <= i :: Fires(lib, s.conditions[0], j, candles, below)
    else
      LeafFires(lib, s, i, candles)
  }

  /** The meaning of a signal without the depth cap. */
  predicate Holds(lib: Library, s: Signal, i: int, candles: seq<Candle>)
    decreases s
  {
    if s.kind == And then
      |s.conditions| > 0 && forall k | 0 <= k < |s.conditions| :: Holds(lib, s.conditions[k], i, candles)
    else if s.kind == Or then
      |s.conditions| > 0 && exists k | 0 <= k < |s.conditions| :: Holds(lib, s.conditions[k], i, candles)
    else if s.kind == ConfirmBars then
      && |s.conditions| == 1
      && i >= s.bars.Else(3) - 1
      && forall j | i - s.bars.Else(3) < j <= i :: Holds(lib, s.conditions[0], j, candles)
    else
      LeafFires(lib, s, i, candles)
  }

  /** No part of the signal lies more than `d` levels deep. */
  predicate HeightAtMost(s: Signal, d: nat)
    decreases s
  {
    d > 0 && forall k | 0 <= k < |s.conditions| :: HeightAtMost(s.conditions[k], d - 1)
  }

  /** The cap only ever suppresses signals. */
  lemma {:induction false} CapIsSound(lib: Library, s: Signal, i: int, candles: seq<Candle>, depth: nat)
    requires Fires(lib, s, i, candles, depth)
    ensures Holds(lib, s, i, candles)
    decreases s
  {
    if s.kind == And {
      forall k | 0 <= k < |s.conditions| ensures Holds(lib, s.conditions[k], i, candles) {
        CapIsSound(lib, s.conditions[k], i, candles, depth + 1);
      }
    } else if s.kind == Or {
      var k :| 0 <= k < |s.conditions| && Fires(lib, s.conditions[k], i, candles, depth + 1);
      CapIsSound(lib, s.conditions[k], i, candles, depth + 1);
    } else if s.kind == ConfirmBars {
      forall j | i - s.bars.Else(3) < j <= i ensures Holds(lib, s.conditions[0], j, candles) {
        CapIsSound(lib, s.conditions[0], j, candles, depth + 1);
      }
    }
  }

  /** Signals that fit under the cap are evaluated exactly. */
  lemma {:induction false} CapIsExact(lib: Library, s: Signal, i: int, candles: seq<Candle>, depth: nat)
    requires depth <= 5 && HeightAtMost(s, 5 - depth)
    ensures Fires(lib, s, i, candles, depth) <==> Holds(lib, s, i, candles)
    decreases s
  {
    if s.kind == And || s.kind == Or {
      forall k | 0 <= k < |s.conditions|
        ensures Fires(lib, s.conditions[k], i, candles, depth + 1) <==> Holds(lib, s.conditions[k], i, candles)
      {
        CapIsExact(lib, s.conditions[k], i, candles, depth + 1);
      }
    } else if s.kind == ConfirmBars && |s.conditions| == 1 {
      var below := depth + 1;
      forall j
        ensures Fires(lib, s.conditions[0], j, candles, below) <==> Holds(lib, s.conditions[0], j, candles)
      {
        CapIsExact(lib, s.conditions[0], j, candles, below);
      }
    }
  }

  function Compose(kind: Kind, bars: Option<int>, conditions: seq<Signal>): Signal {
    Signal(kind, None, None, None, None, None, conditions, bars)
  }

  function Confirm(n: int, s: Signal): Signal {
    Compose(ConfirmBars, Some(n), [s])
  }

  /** A signal nested in `n` single-child conjunctions. */
  function Nested(n: nat, s: Signal): Signal {
    if n == 0 then s else Compose(And, None, [Nested(n - 1, s)])
  }

  /**
   * Nesting is transparent without the cap; with it, the nested signal fires exactly when the nesting
   * leaves a level for the leaf. So the cap loses exactly what lies beyond it.
   */
  lemma {:induction false} NestingAgainstCap(lib: Library, leaf: Signal, n: nat, i: int, candles: seq<Candle>,
                                             depth: nat)
    requires leaf.kind == Crossover || leaf.kind == Crossunder || leaf.kind == Compare
    ensures Holds(lib, Nested(n, leaf), i, candles) <==> LeafFires(lib, leaf, i, candles)
    ensures Fires(lib, Nested(n, leaf), i, candles, depth)
      <==> LeafFires(lib, leaf, i, candles) && n + depth < 5
    decreases n
  {
    if n > 0 {
      NestingAgainstCap(lib, leaf, n - 1, i, candles, depth + 1);
      var s := Nested(n, leaf);
      assert s.conditions == [Nested(n - 1, leaf)] && s.conditions[0] == Nested(n - 1, leaf);
    }
  }

  /** Confirming a confirmation adds up the bars, less the one they share. */
  lemma ConfirmComposes(lib: Library, n: int, m: int, s: Signal, i: int, candles: seq<Candle>)
    requires n >= 1 && m >= 1
    ensures Holds(lib, Confirm(n, Confirm(m, s)), i, candles) <==> Holds(lib, Confirm(n + m - 1, s), i, candles)
  {
    var inner := Confirm(m, s);
    assert inner.conditions[0] == s && Confirm(n, inner).conditions[0] == inner;
    assert Confirm(n + m - 1, s).conditions[0] == s;
    if Holds(lib, Confirm(n, inner), i, candles) {
      assert Holds(lib, inner, i - n + 1, candles);
      forall j | i - (n + m - 1) < j <= i ensures Holds(lib, s, j, candles) {
        if j <= i - n + 1 {
        } else {
          assert Holds(lib, inner, j, candles);
        }
      }
    }
    if Holds(lib, Confirm(n + m - 1, s), i, candles) {
      forall j | i - n < j <= i ensures Holds(lib, inner, j, candles) {
      }
    }
  }

  function RefQuery(ref: SignalRef): Query {
    QueryOf(ref.block, ref.params)
  }

  function OptQuery(ref: Option<SignalRef>): set<Query> {
    if ref == None then {} else {RefQuery(ref.value)}
  }

  /** The queries the evaluator may make for a signal. */
  ghost function SignalReads(s: Signal): set<Query>
    decreases s
  {
    match s.kind
    case Crossover => OptQuery(s.fast) + OptQuery(s.slow)
    case Crossunder => OptQuery(s.fast) + OptQuery(s.slow)
    case Compare => OptQuery(s.left) + OptQuery(s.right)
    case And => set k, q | 0 <= k < |s.conditions| && q in SignalReads(s.conditions[k]) :: q
    case Or => set k, q | 0 <= k < |s.conditions| && q in SignalReads(s.conditions[k]) :: q
    case ConfirmBars => if |s.conditions| == 1 then SignalReads(s.conditions[0]) else {}
    case OtherKind => {}
  }

  lemma ChildReads(lib: Library, s: Signal, k: nat, candles: seq<Candle>, m: nat)
    requires s.kind == And || s.kind == Or || (s.kind == ConfirmBars && |s.conditions| == 1)
    requires k < |s.conditions| && m <= |candles| && AgreesOn(lib, SignalReads(s), candles, m)
    ensures AgreesOn(lib, SignalReads(s.conditions[k]), candles, m)
  {
    forall q | q in SignalReads(s.conditions[k]) ensures q in SignalReads(s) {
      assert q in SignalReads(s);
    }
  }

  /** A signal at a bar of a prefix is the same on the prefix, if the indicators in it are. */
  lemma {:induction false} SignalIsCausal(lib: Library, s: Signal, i: nat, candles: seq<Candle>, m: nat, depth: nat)
    requires i < m <= |candles| && AgreesOn(lib, SignalReads(s), candles, m)
    ensures Fires(lib, s, i, candles[..m], depth) <==> Fires(lib, s, i, candles, depth)
    decreases s
  {
    if depth >= MAX_SIGNAL_DEPTH {
    } else if s.kind == And || s.kind == Or {
      forall k | 0 <= k < |s.conditions|
        ensures Fires(lib, s.conditions[k], i, candles[..m], depth + 1)
           <==> Fires(lib, s.conditions[k], i, candles, depth + 1)
      {
        ChildReads(lib, s, k, candles, m);
        SignalIsCausal(lib, s.conditions[k], i, candles, m, depth + 1);
      }
    } else if s.kind == ConfirmBars {
      if |s.conditions| == 1 && i >= s.bars.Else(3) - 1 {
        ChildReads(lib, s, 0, candles, m);
        var below := depth + 1;
        forall j | i - s.bars.Else(3) < j <= i
          ensures Fires(lib, s.conditions[0], j, candles[..m], below)
             <==> Fires(lib, s.conditions[0], j, candles, below)
        {
          SignalIsCausal(lib, s.conditions[0], j, candles, m, below);
        }
      }
    } else {
      LeafIsCausal(lib, s, i, candles, m);
    }
  }

  lemma LeafIsCausal(lib: Library, s: Signal, i: nat, candles: seq<Candle>, m: nat)
    requires s.kind != And && s.kind != Or && s.kind != ConfirmBars
    requires i < m <= |candles| && AgreesOn(lib, SignalReads(s), candles, m)
    ensures LeafFires(lib, s, i, candles[..m]) <==> LeafFires(lib, s, i, candles)
  {
  }
}
