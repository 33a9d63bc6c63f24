/** Parameter grids (`sweepGrid.ts`): value ranges, and their Cartesian product in lexicographic order. */
module SweepGrid {
  import opened Reals

  datatype Descriptor = Descriptor(blockId: string, paramName: string, from: real, to: real, step: real)

  datatype Assignment = Assignment(blockId: string, paramName: string, value: real)

  const EPSILON := 0.000000001

  const SCALE := 100000000.0

  /** Rounding to eight decimals, halves up. */
  function Round8(v: real): real {
    (v * SCALE + 0.5).Floor as real / SCALE
  }

  /** Number of values: steps that stay within `to`, give or take the epsilon. */
  function Count(p: Descriptor): nat
    requires p.step > 0.0
  {
    var last := (p.to + EPSILON - p.from) / p.step;
    if last < 0.0 then 0 else last.Floor + 1
  }

  function Value(p: Descriptor, k: nat): real {
    Round8(p.from + k as real * p.step)
  }

  function Values(p: Descriptor): (vs: seq<real>)
    requires p.step > 0.0
    ensures |vs| == Count(p)
  {
    seq(Count(p), k requires 0 <= k < Count(p) => Value(p, k))
  }

  /** The loop condition holds at step `k` exactly below the count. */
  lemma WithinCount(p: Descriptor, k: nat)
    requires p.step > 0.0
    ensures p.from + k as real * p.step <= p.to + EPSILON <==> k < Count(p)
  {
    var span := p.to + EPSILON - p.from;
    var last := span / p.step;
    assert last * p.step == span;
    if k as real <= last {
      MulMono(k as real, last, p.step);
    } else {
      MulStrict(last, k as real, p.step);
    }
  }

  method ExpandValues(p: Descriptor) returns (out: seq<real>)
    requires p.step > 0.0
    ensures out == Values(p)
  {
    hide Round8;
    out := [];
    var v := p.from;
    WithinCount(p, 0);
    while v <= p.to + EPSILON
      invariant |out| <= Count(p)
      invariant v == p.from + |out| as real * p.step
      invariant out == Values(p)[..|out|]
      invariant v <= p.to + EPSILON <==> |out| < Count(p)
      decreases Count(p) - |out|
    {
      ghost var k := |out|;
      assert Round8(v) == Value(p, k);
      out := out + [Round8(v)];
      v := v + p.step;
      assert v == p.from + (k + 1) as real * p.step;
      WithinCount(p, k + 1);
    }
  }

  /** Each value lies within half of 1e-8 of its place in the range, and is a whole multiple of 1e-8. */
  lemma ValuesAreNearest(p: Descriptor, k: nat)
    ensures -0.000000005 <= Value(p, k) - (p.from + k as real * p.step) <= 0.000000005
    ensures Value(p, k) * 100000000.0 == (Value(p, k) * 100000000.0).Floor as real
  {
    RoundsToNearest(p.from + k as real * p.step);
  }

  lemma RoundsToNearest(v: real)
    ensures -0.000000005 <= Round8(v) - v <= 0.000000005
    ensures Round8(v) * 100000000.0 == (Round8(v) * 100000000.0).Floor as real
  {
    var n := (v * SCALE + 0.5).Floor as real;
    assert Round8(v) * SCALE == n;
  }

  /** A step of at least 1e-8 survives the rounding. */
  lemma ValuesIncrease(p: Descriptor, j: nat, k: nat)
    requires p.step >= 1.0 / SCALE && j < k
    ensures Value(p, j) < Value(p, k)
  {
    var a, b := p.from + j as real * p.step, p.from + k as real * p.step;
    MulMono(j as real + 1.0, k as real, p.step);
    assert b - a >= p.step;
    assert b * SCALE >= a * SCALE + 1.0;
    assert (b * SCALE + 0.5).Floor >= (a * SCALE + 0.5).Floor + 1;
  }

  ghost predicate Increasing(p: Descriptor)
    requires p.step > 0.0
  {
    forall j, k :: 0 <= j < k < |Values(p)| ==> Values(p)[j] < Values(p)[k]
  }

  ghost predicate AlwaysIncreasing(step: real)
    requires step > 0.0
  {
    forall p: Descriptor :: p.step == step && p.from < p.to ==> Increasing(p)
  }

  /** The values of every range increase strictly exactly for steps of at least 1e-8, what the rounding keeps. */
  lemma ValuesIncreaseExactly(step: real)
    requires step > 0.0
    ensures AlwaysIncreasing(step) <==> step >= 1.0 / SCALE
  {
    if step >= 1.0 / SCALE {
      forall p: Descriptor | p.step == step && p.from < p.to ensures Increasing(p) {
        forall j, k | 0 <= j < k < |Values(p)| ensures Values(p)[j] < Values(p)[k] {
          ValuesIncrease(p, j, k);
        }
      }
    } else {
      var p := Collapsing(step);
      assert !Increasing(p);
    }
  }

  /** A smaller step from half a unit below zero stays at zero. */
  lemma Collapsing(step: real) returns (p: Descriptor)
    requires 0.0 < step < 1.0 / SCALE
    ensures p.step == step && p.from < p.to
    ensures |Values(p)| >= 2 && Values(p)[0] == Values(p)[1]
  {
    var from := -0.5 / SCALE;
    p := Descriptor("block", "param", from, from + step, step);
    WithinCount(p, 1);
    assert (from * SCALE + 0.5).Floor == 0;
    assert ((from + step) * SCALE + 0.5).Floor == 0;
  }

  /** The route guard's estimate of the number of runs. */
  function GuardRuns(p: Descriptor): int
    requires p.step > 0.0
  {
    ((p.to - p.from) / p.step).Floor + 1
  }

  /** Distance of the range's length from the next whole number of steps. */
  function Shortfall(p: Descriptor): real
    requires p.step > 0.0
  {
    var x := (p.to - p.from) / p.step;
    x.Floor as real + 1.0 - x
  }

  /** Whole steps that fit into the loop's epsilon: what the guard overlooks on every range. */
  function Overlooked(step: real): nat
    requires step > 0.0
  {
    QuotientWithin(EPSILON, step, 0.0, EPSILON / step);
    (EPSILON / step).Floor
  }

  /**
   * The guard undercounts by the steps that fit into the epsilon, and by one more exactly if the range falls
   * short of another step by no more than the rest of the epsilon.
   */
  lemma GuardShortfall(p: Descriptor)
    requires p.step > 0.0 && p.from <= p.to
    ensures Count(p) == GuardRuns(p) + Overlooked(p.step)
                        + if Shortfall(p) <= EPSILON / p.step - Overlooked(p.step) as real then 1 else 0
  {
    var x, e := (p.to - p.from) / p.step, EPSILON / p.step;
    QuotientSum(p.to - p.from, EPSILON, p.step);
    assert p.to + EPSILON - p.from == (p.to - p.from) + EPSILON;
    assert (p.to + EPSILON - p.from) / p.step == x + e;
    QuotientWithin(EPSILON, p.step, 0.0, e);
    QuotientWithin(p.to - p.from, p.step, 0.0, x);
  }

  ghost predicate AtMostOneShort(step: real)
    requires step > 0.0
  {
    forall p: Descriptor :: p.step == step && p.from < p.to ==> Count(p) <= GuardRuns(p) + 1
  }

  /** No range is undercounted by more than one exactly for steps of at least the epsilon. */
  lemma AtMostOneShortExactly(step: real)
    requires step > 0.0
    ensures AtMostOneShort(step) <==> step >= EPSILON
  {
    var e, n := EPSILON / step, Overlooked(step);
    assert e * step == EPSILON;
    if step >= EPSILON {
      QuotientWithin(EPSILON, step, 0.0, 1.0);
      forall p: Descriptor | p.step == step && p.from < p.to
        ensures Count(p) <= GuardRuns(p) + 1
      {
        GuardShortfall(p);
      }
    } else {
      var p := TwiceShort(step);
      assert Count(p) > GuardRuns(p) + 1;
    }
  }

  /** The range that ends one epsilon's rest short of its first step. */
  lemma TwiceShort(step: real) returns (p: Descriptor)
    requires 0.0 < step < EPSILON
    ensures p.step == step && p.from < p.to
    ensures Count(p) >= GuardRuns(p) + 2
  {
    var e, n := EPSILON / step, Overlooked(step);
    assert e * step == EPSILON;
    CancelStrict(1.0, e, step);
    var x := 1.0 - (e - n as real);
    MulPos(x, step);
    p := Descriptor("block", "param", 0.0, x * step, step);
    assert x * step / step == x;
    GuardShortfall(p);
  }

  /** The route sees two runs where the loop makes 1002. */
  lemma TinyStepExample()
    ensures
      var p := Descriptor("block", "param", 0.0, 0.000000000001, 0.000000000001);
      GuardRuns(p) == 2 && Count(p) == 1002
  {
  }

  lemma QuotientSum(a: real, b: real, c: real)
    requires c > 0.0
    ensures (a + b) / c == a / c + b / c
  {
    assert (a / c + b / c) * c == a + b;
  }

  // ----- the product -----

  function Assign(p: Descriptor, v: real): Assignment {
    Assignment(p.blockId, p.paramName, v)
  }

  function Prefixed(a: Assignment, tails: seq<seq<Assignment>>): (r: seq<seq<Assignment>>)
    ensures |r| == |tails|
  {
    seq(|tails|, k requires 0 <= k < |tails| => [a] + tails[k])
  }

  ghost predicate Proper(params: seq<Descriptor>) {
    forall i :: 0 <= i < |params| ==> params[i].step > 0.0
  }

  /** Combinations of the parameters from `d` on that use the first `m` values of parameter `d`. */
  function Blocks(params: seq<Descriptor>, d: nat, m: nat): seq<seq<Assignment>>
    requires Proper(params) && d < |params| && m <= Count(params[d])
    decreases |params| - d, 0, m
  {
    if m == 0 then []
    else Blocks(params, d, m - 1) + Prefixed(Assign(params[d], Value(params[d], m - 1)), Suffixes(params, d + 1))
  }

  /** All combinations of the parameters from `d` on. */
  function Suffixes(params: seq<Descriptor>, d: nat): seq<seq<Assignment>>
    requires Proper(params) && d <= |params|
    decreases |params| - d, 1, 0
  {
    if d == |params| then [[]] else Blocks(params, d, Count(params[d]))
  }

  function Grid(params: seq<Descriptor>): seq<seq<Assignment>>
    requires Proper(params)
  {
    if |params| == 0 then [] else Suffixes(params, 0)
  }

  /** Product of the counts from parameter `d` on. */
  function Size(params: seq<Descriptor>, d: nat): nat
    requires Proper(params) && d <= |params|
    decreases |params| - d
  {
    if d == |params| then 1 else Count(params[d]) * Size(params, d + 1)
  }

  lemma {:induction false} BlocksSize(params: seq<Descriptor>, d: nat, m: nat)
    requires Proper(params) && d < |params| && m <= Count(params[d])
    ensures |Blocks(params, d, m)| == m * Size(params, d + 1)
    decreases |params| - d, 0, m
  {
    if m > 0 {
      BlocksSize(params, d, m - 1);
      SuffixesSize(params, d + 1);
      assert m * Size(params, d + 1) == (m - 1) * Size(params, d + 1) + Size(params, d + 1);
    }
  }

  lemma {:induction false} SuffixesSize(params: seq<Descriptor>, d: nat)
    requires Proper(params) && d <= |params|
    ensures |Suffixes(params, d)| == Size(params, d)
    decreases |params| - d, 1, 0
  {
    if d < |params| {
      BlocksSize(params, d, Count(params[d]));
    }
  }

  /** The grid has one combination for every choice of values. */
  lemma GridSize(params: seq<Descriptor>)
    requires Proper(params) && |params| > 0
    ensures |Grid(params)| == Size(params, 0)
  {
    SuffixesSize(params, 0);
  }

  // ----- mixed radix -----

  /** One value index per parameter from `d` on, each in range. */
  ghost predicate Digits(params: seq<Descriptor>, d: nat, digits: seq<nat>)
    requires Proper(params) && d <= |params|
  {
    && |digits| == |params| - d
    && forall j :: 0 <= j < |digits| ==> digits[j] < Count(params[d + j])
  }

  /** The number the digits denote; digit `j` weighs the product of the counts after it. */
  function Index(params: seq<Descriptor>, d: nat, digits: seq<nat>): nat
    requires Proper(params) && d <= |params| && |digits| == |params| - d
    decreases |digits|
  {
    if digits == [] then 0 else digits[0] * Size(params, d + 1) + Index(params, d + 1, digits[1..])
  }

  /** The combination that picks value `digits[j]` of each parameter. */
  function Pick(params: seq<Descriptor>, d: nat, digits: seq<nat>): seq<Assignment>
    requires Proper(params) && d <= |params| && |digits| == |params| - d
  {
    seq(|digits|, j requires 0 <= j < |digits| => Assign(params[d + j], Value(params[d + j], digits[j])))
  }

  lemma {:induction false} BlocksAt(params: seq<Descriptor>, d: nat, m: nat, i: nat, r: nat)
    requires Proper(params) && d < |params| && i < m <= Count(params[d]) && r < Size(params, d + 1)
    ensures |Suffixes(params, d + 1)| == Size(params, d + 1)
    ensures i * Size(params, d + 1) + r < |Blocks(params, d, m)|
    ensures Blocks(params, d, m)[i * Size(params, d + 1) + r]
         == [Assign(params[d], Value(params[d], i))] + Suffixes(params, d + 1)[r]
    decreases m
  {
    var n := Size(params, d + 1);
    BlocksSize(params, d, m - 1);
    SuffixesSize(params, d + 1);
    if i < m - 1 {
      BlocksAt(params, d, m - 1, i, r);
    }
  }

  lemma {:induction false} IndexInRange(params: seq<Descriptor>, d: nat, digits: seq<nat>)
    requires Proper(params) && d <= |params| && Digits(params, d, digits)
    ensures Index(params, d, digits) < Size(params, d)
    decreases |digits|
  {
    if digits != [] {
      IndexInRange(params, d + 1, digits[1..]);
      Below(digits[0], Count(params[d]), Size(params, d + 1), Index(params, d + 1, digits[1..]));
    }
  }

  lemma Below(a: nat, b: nat, n: nat, r: nat)
    requires a < b && r < n
    ensures a * n + r < b * n
  {
    assert (a + 1) * n <= b * n;
    assert (a + 1) * n == a * n + n;
  }

  /** The combination at the digits' number is the one the digits pick. */
  lemma {:induction false} SuffixAt(params: seq<Descriptor>, d: nat, digits: seq<nat>)
    requires Proper(params) && d <= |params| && Digits(params, d, digits)
    ensures Index(params, d, digits) < |Suffixes(params, d)|
    ensures Suffixes(params, d)[Index(params, d, digits)] == Pick(params, d, digits)
    decreases |digits|
  {
    hide Count;
    hide Value;
    hide Assign;
    hide Blocks;
    hide Size;
    IndexInRange(params, d, digits);
    SuffixesSize(params, d);
    if digits == [] {
    } else {
      SuffixAt(params, d + 1, digits[1..]);
      IndexInRange(params, d + 1, digits[1..]);
      BlocksAt(params, d, Count(params[d]), digits[0], Index(params, d + 1, digits[1..]));
      assert Pick(params, d, digits)
          == [Assign(params[d], Value(params[d], digits[0]))] + Pick(params, d + 1, digits[1..]);
    }
  }

  /** The digits of a number, most significant first. */
  function DigitsOf(params: seq<Descriptor>, d: nat, k: nat): (digits: seq<nat>)
    requires Proper(params) && d <= |params| && k < Size(params, d)
    ensures |digits| == |params| - d
    decreases |params| - d
  {
    if d == |params| then []
    else
      var n := Size(params, d + 1);
      SizePositive(Count(params[d]), n, k);
      [k / n] + DigitsOf(params, d + 1, k % n)
  }

  /** The digits are in range and denote the number. */
  lemma {:induction false} DigitsDenote(params: seq<Descriptor>, d: nat, k: nat)
    requires Proper(params) && d <= |params| && k < Size(params, d)
    ensures Digits(params, d, DigitsOf(params, d, k))
    ensures Index(params, d, DigitsOf(params, d, k)) == k
    decreases |params| - d
  {
    hide Digits;
    hide Index;
    hide Count;
    if d == |params| {
      NoDigits(params);
    } else {
      var n := Size(params, d + 1);
      SizePositive(Count(params[d]), n, k);
      DigitsDenote(params, d + 1, k % n);
      LeadingDigit(params, d, k / n, DigitsOf(params, d + 1, k % n));
    }
  }

  lemma NoDigits(params: seq<Descriptor>)
    requires Proper(params)
    ensures Digits(params, |params|, []) && Index(params, |params|, []) == 0
  {
  }

  lemma LeadingDigit(params: seq<Descriptor>, d: nat, q: nat, rest: seq<nat>)
    requires Proper(params) && d < |params| && Digits(params, d + 1, rest) && q < Count(params[d])
    ensures Digits(params, d, [q] + rest)
    ensures Index(params, d, [q] + rest) == q * Size(params, d + 1) + Index(params, d + 1, rest)
  {
    assert ([q] + rest)[1..] == rest;
  }

  lemma SizePositive(c: nat, n: nat, k: nat)
    requires k < c * n
    ensures n > 0 && k / n < c && k == k / n * n + k % n
  {
    assert n != 0;
    var q := k / n;
    assert q * n <= k;
    assert (c - q) * n > 0;
  }

  /** A number has only one sequence of digits. */
  lemma {:induction false} DigitsUnique(params: seq<Descriptor>, d: nat, a: seq<nat>, b: seq<nat>)
    requires Proper(params) && d <= |params| && Digits(params, d, a) && Digits(params, d, b)
    requires Index(params, d, a) == Index(params, d, b)
    ensures a == b
    decreases |a|
  {
    if a != [] {
      IndexInRange(params, d + 1, a[1..]);
      IndexInRange(params, d + 1, b[1..]);
      SameQuotient(a[0], b[0], Size(params, d + 1), Index(params, d + 1, a[1..]), Index(params, d + 1, b[1..]));
      DigitsUnique(params, d + 1, a[1..], b[1..]);
      assert a == [a[0]] + a[1..] && b == [b[0]] + b[1..];
    }
  }

  lemma SameQuotient(a: nat, b: nat, n: nat, r: nat, s: nat)
    requires r < n && s < n && a * n + r == b * n + s
    ensures a == b && r == s
  {
    if a < b { Below(a, b, n, r); }
    if b < a { Below(b, a, n, s); }
  }

  /**
   * Grid enumeration: the `k`-th combination holds, for each parameter in order, the value at the mixed-radix
   * digit of `k`; the digits are those and no others, and the last parameter has weight one.
   */
  lemma GridIsMixedRadix(params: seq<Descriptor>, k: nat, digits: seq<nat>)
    requires Proper(params) && |params| > 0 && k < Size(params, 0) && Digits(params, 0, digits)
    ensures |Grid(params)| == Size(params, 0)
    ensures Digits(params, 0, DigitsOf(params, 0, k))
    ensures Grid(params)[k] == Pick(params, 0, DigitsOf(params, 0, k))
    ensures forall j :: 0 <= j < |params| ==>
      && Grid(params)[k][j].blockId == params[j].blockId && Grid(params)[k][j].paramName == params[j].paramName
      && Grid(params)[k][j].value == Value(params[j], DigitsOf(params, 0, k)[j])
    ensures Index(params, 0, digits) == k <==> digits == DigitsOf(params, 0, k)
  {
    GridSize(params);
    DigitsDenote(params, 0, k);
    SuffixAt(params, 0, DigitsOf(params, 0, k));
    if Index(params, 0, digits) == k {
      DigitsUnique(params, 0, digits, DigitsOf(params, 0, k));
    }
  }

  // ----- the recursion over a shared stack -----

  class Enumeration {
    const params: seq<Descriptor>
    const valuesByParam: seq<seq<real>>
    var combinations: seq<seq<Assignment>>
    var current: seq<Assignment>

    ghost predicate Valid() {
      && Proper(params)
      && |valuesByParam| == |params|
      && forall i :: 0 <= i < |params| ==> valuesByParam[i] == Values(params[i])
    }

    constructor (params: seq<Descriptor>, valuesByParam: seq<seq<real>>)
      requires Proper(params) && |valuesByParam| == |params|
      requires forall i :: 0 <= i < |params| ==> valuesByParam[i] == Values(params[i])
      ensures Valid() && this.params == params && combinations == [] && current == []
    {
      this.params, this.valuesByParam := params, valuesByParam;
      combinations, current := [], [];
    }

    /** Appends every completion of `current`, and leaves `current` as it found it. */
    method Recurse(depth: nat)
      requires Valid() && depth <= |params|
      modifies this
      ensures current == old(current)
      ensures combinations == old(combinations) + After(old(current), Suffixes(params, depth))
      decreases |params| - depth
    {
      if depth == |params| {
        combinations := combinations + [current];
        assert current + [] == current;
        assert After(current, Suffixes(params, depth)) == [current];
        return;
      }
      var p := params[depth];
      ghost var before, prefix := combinations, current;
      assert After(prefix, []) == [];
      for i := 0 to |valuesByParam[depth]|
        invariant current == prefix
        invariant combinations == before + After(prefix, Blocks(params, depth, i))
      {
        var a := Assignment(p.blockId, p.paramName, valuesByParam[depth][i]);
        current := current + [a];
        Recurse(depth + 1);
        AfterBlock(prefix, a, Blocks(params, depth, i), Suffixes(params, depth + 1));
        current := current[..|current| - 1];
      }
    }
  }

  /** Each completion behind a common beginning. */
  function After(prefix: seq<Assignment>, tails: seq<seq<Assignment>>): (r: seq<seq<Assignment>>)
    ensures |r| == |tails|
  {
    seq(|tails|, k requires 0 <= k < |tails| => prefix + tails[k])
  }

  lemma AfterBlock(prefix: seq<Assignment>, a: Assignment, done: seq<seq<Assignment>>, tails: seq<seq<Assignment>>)
    ensures After(prefix, done) + After(prefix + [a], tails) == After(prefix, done + Prefixed(a, tails))
  {
    forall k | 0 <= k < |tails| ensures After(prefix + [a], tails)[k] == prefix + Prefixed(a, tails)[k] {
      assert prefix + [a] + tails[k] == prefix + ([a] + tails[k]);
    }
  }

  /** The whole enumeration; no parameters give no combinations. */
  method EnumerateGrid(params: seq<Descriptor>) returns (combinations: seq<seq<Assignment>>)
    requires Proper(params)
    ensures combinations == Grid(params)
  {
    if |params| == 0 { return []; }
    var valuesByParam: seq<seq<real>> := [];
    for i := 0 to |params|
      invariant |valuesByParam| == i
      invariant forall j :: 0 <= j < i ==> valuesByParam[j] == Values(params[j])
    {
      var values := ExpandValues(params[i]);
      valuesByParam := valuesByParam + [values];
    }
    var e := new Enumeration(params, valuesByParam);
    e.Recurse(0);
    assert forall tail: seq<Assignment> :: [] + tail == tail;
    assert After([], Suffixes(params, 0)) == Suffixes(params, 0);
    return e.combinations;
  }
}
