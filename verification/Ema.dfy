/** The exponential moving average (`indicators/ema.ts`). */
module Ema {
  import opened Wrappers
  import opened Market
  import opened Reals

  type Series = seq<Option<real>>

  /** Sum of the first `n` closes. */
  function CloseSum(candles: seq<Candle>, n: nat): real
    requires n <= |candles|
  {
    if n == 0 then 0.0 else CloseSum(candles, n - 1) + candles[n - 1].close
  }

  /** Smoothing factor. */
  function Alpha(length: nat): real {
    2.0 / (length as real + 1.0)
  }

  /** The average at bar `i`: an SMA seed at bar `length - 1`, smoothed from there on. */
  function EmaAt(candles: seq<Candle>, length: nat, i: nat): real
    requires 1 <= length <= i + 1 <= |candles|
    decreases i
  {
    if i == length - 1 then CloseSum(candles, length) / length as real
    else candles[i].close * Alpha(length) + EmaAt(candles, length, i - 1) * (1.0 - Alpha(length))
  }

  function EmaSeries(candles: seq<Candle>, length: nat): (s: Series)
    requires 1 <= length
    ensures |s| == |candles|
  {
    seq(|candles|, i requires 0 <= i < |candles| =>
      if i < length - 1 then None else Some(EmaAt(candles, length, i)))
  }

  method CalcEMA(candles: seq<Candle>, length: nat) returns (result: array<Option<real>>)
    requires 1 <= length
    ensures result[..] == EmaSeries(candles, length)
  {
    var n := |candles|;
    result := new Option<real>[n](_ => None);
    if n < length {
      return;
    }
    var sum := 0.0;
    for i := 0 to length
      invariant sum == CloseSum(candles, i)
    {
      sum := sum + candles[i].close;
    }
    var ema := sum / length as real;
    result[length - 1] := Some(ema);
    var k := 2.0 / (length as real + 1.0);
    assert k == Alpha(length);
    hide Alpha;
    for i := length to n
      invariant ema == EmaAt(candles, length, i - 1)
      invariant result[..i] == EmaSeries(candles, length)[..i]
      invariant forall j :: i <= j < n ==> result[j] == None
    {
      ema := candles[i].close * k + ema * (1.0 - k);
      result[i] := Some(ema);
    }
  }

  lemma {:induction false} CloseSumPrefix(candles: seq<Candle>, m: nat, n: nat)
    requires n <= m <= |candles|
    ensures CloseSum(candles[..m], n) == CloseSum(candles, n)
  {
    if n > 0 {
      CloseSumPrefix(candles, m, n - 1);
    }
  }

  /** Causality: the average at bar `i` reads no candle after bar `i`. */
  lemma {:induction false} EmaIsCausal(candles: seq<Candle>, length: nat, m: nat, i: nat)
    requires 1 <= length <= i + 1 <= m <= |candles|
    ensures EmaAt(candles[..m], length, i) == EmaAt(candles, length, i)
    decreases i
  {
    if i == length - 1 {
      CloseSumPrefix(candles, m, length);
    } else {
      EmaIsCausal(candles, length, m, i - 1);
    }
  }

  lemma {:induction false} CloseSumWithin(candles: seq<Candle>, n: nat, lo: real, hi: real)
    requires n <= |candles|
    requires forall j :: 0 <= j < n ==> lo <= candles[j].close <= hi
    ensures lo * n as real <= CloseSum(candles, n) <= hi * n as real
  {
    if n > 0 {
      CloseSumWithin(candles, n - 1, lo, hi);
      assert lo * n as real == lo * (n - 1) as real + lo;
      assert hi * n as real == hi * (n - 1) as real + hi;
    }
  }

  lemma AlphaIsWeight(length: nat)
    requires 1 <= length
    ensures 0.0 <= Alpha(length) <= 1.0
  {
    var n := length as real + 1.0;
    QuotientWithin(2.0, n, 0.0, 1.0);
  }

  lemma EmaStep(candles: seq<Candle>, length: nat, i: nat)
    requires 1 <= length <= i < |candles|
    ensures EmaAt(candles, length, i)
         == candles[i].close * Alpha(length) + EmaAt(candles, length, i - 1) * (1.0 - Alpha(length))
  {
    hide Alpha;
  }

  /** Smoothing never leaves the range of the closes read so far. */
  lemma {:induction false} EmaWithinCloses(candles: seq<Candle>, length: nat, i: nat, lo: real, hi: real)
    requires 1 <= length <= i + 1 <= |candles|
    requires forall j :: 0 <= j <= i ==> lo <= candles[j].close <= hi
    ensures lo <= EmaAt(candles, length, i) <= hi
    decreases i
  {
    hide Alpha;
    hide CloseSum;
    if i == length - 1 {
      CloseSumWithin(candles, length, lo, hi);
      QuotientWithin(CloseSum(candles, length), length as real, lo, hi);
    } else {
      EmaWithinCloses(candles, length, i - 1, lo, hi);
      AlphaIsWeight(length);
      EmaStep(candles, length, i);
      hide EmaAt;
      BlendWithin(candles[i].close, EmaAt(candles, length, i - 1), Alpha(length), lo, hi);
    }
  }
}
