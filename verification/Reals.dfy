/** Facts about products and quotients of reals that the price arithmetic needs. */
module Reals {

  function Min(a: real, b: real): real { if a <= b then a else b }

  function Max(a: real, b: real): real { if a >= b then a else b }

  function Abs(a: real): real { if a >= 0.0 then a else -a }

  lemma MulPos(a: real, b: real)
    requires a > 0.0 && b > 0.0
    ensures a * b > 0.0
  {
  }

  lemma MulMono(a: real, b: real, c: real)
    requires a <= b && c >= 0.0
    ensures a * c <= b * c
  {
    assert (b - a) * c >= 0.0;
  }

  /** A factor that is not positive turns an order around. */
  lemma MulAnti(a: real, b: real, c: real)
    requires a <= b && c <= 0.0
    ensures b * c <= a * c
  {
    assert (b - a) * c <= 0.0;
  }

  lemma MulStrict(a: real, b: real, c: real)
    requires a < b && c > 0.0
    ensures a * c < b * c
  {
    assert (b - a) * c > 0.0;
  }

  /** A quotient lies where its defining products say it does. */
  lemma QuotientWithin(sum: real, n: real, lo: real, hi: real)
    requires n > 0.0 && lo * n <= sum <= hi * n
    ensures lo <= sum / n <= hi
  {
    var q := sum / n;
    assert q * n == sum;
    QuotientAtLeast(q, n, lo);
    QuotientAtMost(q, n, hi);
  }

  lemma QuotientAtLeast(q: real, n: real, lo: real)
    requires n > 0.0 && lo * n <= q * n
    ensures lo <= q
  {
    assert (q - lo) * n >= 0.0;
  }

  lemma QuotientAtMost(q: real, n: real, hi: real)
    requires n > 0.0 && q * n <= hi * n
    ensures q <= hi
  {
    assert (hi - q) * n >= 0.0;
  }

  /** A positive factor cancels from a strict inequality. */
  lemma CancelStrict(a: real, b: real, n: real)
    requires n > 0.0 && a * n < b * n
    ensures a < b
  {
    if a >= b { MulMono(b, a, n); }
  }

  /** A weighted mean of two values lies between any bounds of both. */
  lemma BlendWithin(a: real, b: real, w: real, lo: real, hi: real)
    requires 0.0 <= w <= 1.0 && lo <= a <= hi && lo <= b <= hi
    ensures lo <= a * w + b * (1.0 - w) <= hi
  {
    BlendAtMost(lo, lo, a, b, w, 1.0 - w);
    BlendAtMost(a, b, hi, hi, w, 1.0 - w);
    WeightsOfOne(lo, w);
    WeightsOfOne(hi, w);
  }

  lemma BlendAtMost(a: real, b: real, c: real, d: real, w: real, v: real)
    requires a <= c && b <= d && w >= 0.0 && v >= 0.0
    ensures a * w + b * v <= c * w + d * v
  {
    MulMono(a, c, w);
    MulMono(b, d, v);
  }

  lemma WeightsOfOne(x: real, w: real)
    ensures x * w + x * (1.0 - w) == x
  {
  }

  /** Scaling by a positive number keeps the order. */
  lemma MulOrder(a: real, b: real, c: real, x: real, y: real)
    requires c > 0.0 && x == a * c && y == b * c
    ensures a <= b <==> x <= y
  {
    if a <= b { MulMono(a, b, c); } else { MulStrict(b, a, c); }
  }

  /** A percentage below and above a price. */
  lemma PercentsAway(price: real, pct: real)
    requires price > 0.0 && pct > 0.0
    ensures price * (1.0 - pct / 100.0) < price < price * (1.0 + pct / 100.0)
    ensures (price - price * (1.0 - pct / 100.0)) * 100.0 == price * pct
    ensures (price * (1.0 + pct / 100.0) - price) * 100.0 == price * pct
  {
    var x := price * (pct / 100.0);
    MulPos(price, pct / 100.0);
    assert price * (1.0 - pct / 100.0) == price - x && price * (1.0 + pct / 100.0) == price + x;
  }
}
