/** OHLCV candles. An exchange quotes positive prices; times are milliseconds. */
module Market {

  type Price = x: real | x > 0.0 witness 1.0

  datatype Side = Long | Short

  datatype Candle = Candle(
    openTime: int,
    open: Price,
    high: Price,
    low: Price,
    close: Price,
    volume: real
  )

  /** Candles sorted by open time, without repeated times. */
  ghost predicate Ascending(candles: seq<Candle>) {
    forall i, j :: 0 <= i < j < |candles| ==> candles[i].openTime < candles[j].openTime
  }
}
