/** Different indicator queries can be told apart: some causal library and candles give them different values. */
module Separation {
  import opened Wrappers
  import opened Market
  import opened Indicators

  /** A library that answers `v` for one computation at every bar and nothing for any other. */
  function Only(c: Calc, v: real): Library {
    (comp: Calc, candles: seq<Candle>) =>
      var s := ConstantSeries(if comp == c then Some(v) else None, |candles|);
      Output(s, s, s)
  }

  lemma OnlyAt(c: Calc, v: real, comp: Calc, line: Line, candles: seq<Candle>, i: int)
    ensures At(Only(c, v)(comp, candles).Get(line), i)
         == if comp == c && 0 <= i < |candles| then Some(v) else None
  {
  }

  lemma OnlyIsCausal(c: Calc, v: real)
    ensures Causal(Only(c, v))
  {
    forall comp, line, candles: seq<Candle>, m: nat, i: nat | i < m <= |candles|
      ensures CausalAt(Only(c, v), comp, line, candles, m, i)
    {
      OnlyAt(c, v, comp, line, candles[..m], i);
      OnlyAt(c, v, comp, line, candles, i);
    }
  }

  lemma OnlyValue(c: Calc, v: real, q: Query, candles: seq<Candle>, i: nat)
    requires q.Computed? && !Concrete(q.comp) && i < |candles|
    ensures ValueAt(Only(c, v), q, candles, i) == if q.comp == c then Some(v) else None
  {
    OnlyAt(c, v, q.comp, q.line, candles, i);
  }

  /** One candle whose every field reads `x`. */
  function FlatCandle(x: int): Candle
    requires x > 0
  {
    Candle(x, x as real, x as real, x as real, x as real, x as real)
  }

  ghost predicate Differ(lib: Library, p: Query, q: Query, candles: seq<Candle>, i: nat) {
    Causal(lib) && i < |candles| && ValueAt(lib, p, candles, i) != ValueAt(lib, q, candles, i)
  }

  /** An average over fewer bars is there earlier. */
  lemma ShorterEmaIsEarlier(a: real, b: real) returns (lib: Library, candles: seq<Candle>, i: nat)
    requires PositiveInteger(a) && a != b && (PositiveInteger(b) ==> a < b)
    ensures Differ(lib, Computed(Ema(a), Main), Computed(Ema(b), Main), candles, i)
  {
    lib := Only(Vwap, 0.0);
    OnlyIsCausal(Vwap, 0.0);
    candles := seq(a.Floor, _ => FlatCandle(1));
    i := a.Floor - 1;
    if !PositiveInteger(b) {
      OnlyValue(Vwap, 0.0, Computed(Ema(b), Main), candles, i);
    } else {
      assert a.Floor < b.Floor;
    }
  }

  lemma SeparateQueries(block: Block, p: Params, q: Params) returns (lib: Library, candles: seq<Candle>, i: nat)
    requires QueryOf(block, p) != QueryOf(block, q)
    ensures Differ(lib, QueryOf(block, p), QueryOf(block, q), candles, i)
  {
    var x, y := QueryOf(block, p), QueryOf(block, q);
    if block == EmaBlock && PositiveInteger(x.comp.length)
       && (PositiveInteger(y.comp.length) ==> x.comp.length < y.comp.length) {
      lib, candles, i := ShorterEmaIsEarlier(x.comp.length, y.comp.length);
    } else if block == EmaBlock && PositiveInteger(y.comp.length) {
      lib, candles, i := ShorterEmaIsEarlier(y.comp.length, x.comp.length);
    } else {
      candles, i := [FlatCandle(1)], 0;
      if block == ConstantBlock {
        lib := Only(Vwap, 0.0);
        OnlyIsCausal(Vwap, 0.0);
      } else {
        lib := Only(x.comp, 1.0);
        OnlyIsCausal(x.comp, 1.0);
        OnlyValue(x.comp, 1.0, x, candles, 0);
        OnlyValue(x.comp, 1.0, y, candles, 0);
      }
    }
  }
}
