/** Small concrete strategies and candles for the examples in other modules. */
module Scenarios {
  import opened Wrappers
  import opened Market
  import opened Indicators
  import opened Signals
  import opened Strategy

  /** A candle that stays at one price. */
  function Bar(time: int, price: Price): Candle {
    Candle(time, price, price, price, price, 1.0)
  }

  function ConstantRef(x: real): SignalRef {
    SignalRef(ConstantBlock, NO_PARAMS.(length := Some(x)))
  }

  /** A comparison of constants that holds on every bar. */
  const ALWAYS := Signal(Compare, Some(Gt), None, None, Some(ConstantRef(1.0)), Some(ConstantRef(0.0)), [], None)

  const ALWAYS_LONG := Entry(Some(Long), None, Some(ALWAYS), None, None, None)

  lemma AlwaysFires(lib: Library, i: nat, candles: seq<Candle>)
    requires i < |candles|
    ensures SignalFires(lib, ALWAYS_LONG, i, candles)
  {
  }

  /** Stop and target in percent, and nothing else to leave by. */
  function PctExit(stop: real, target: real): Exit {
    Exit(ExitLevel(FixedPct, stop, None), ExitLevel(FixedPct, target, None), None, None, None)
  }
}
