/** Backward pagination over an exchange that returns pages newest first (`fetchCandles`). */
module Pagination {
  import opened Market

  const PAGE_LIMIT := 1000

  /** The market's candles with open time in `[lo, hi]`, in market order. */
  function Window(market: seq<Candle>, lo: int, hi: int): seq<Candle> {
    if market == [] then []
    else
      var last := market[|market| - 1];
      Window(market[..|market| - 1], lo, hi) + if lo <= last.openTime <= hi then [last] else []
  }

  function Reverse(s: seq<Candle>): (r: seq<Candle>)
    ensures |r| == |s|
  {
    seq(|s|, k requires 0 <= k < |s| => s[|s| - 1 - k])
  }

  /** One response: the newest candles of the window, at most a page of them, newest first. */
  function Page(market: seq<Candle>, lo: int, hi: int): (page: seq<Candle>)
    ensures |page| <= PAGE_LIMIT
  {
    var w := Window(market, lo, hi);
    Reverse(if |w| <= PAGE_LIMIT then w else w[|w| - PAGE_LIMIT..])
  }

  ghost predicate Sorted(s: seq<Candle>) {
    forall i, j :: 0 <= i < j < |s| ==> s[i].openTime <= s[j].openTime
  }

  ghost predicate InRange(s: seq<Candle>, lo: int, hi: int) {
    forall k :: 0 <= k < |s| ==> lo <= s[k].openTime <= hi
  }

  // ----- windows -----

  lemma {:induction false} WindowMembers(market: seq<Candle>, lo: int, hi: int)
    ensures forall k :: 0 <= k < |Window(market, lo, hi)| ==>
      lo <= Window(market, lo, hi)[k].openTime <= hi && Window(market, lo, hi)[k] in market
    ensures forall c :: c in market && lo <= c.openTime <= hi ==> c in Window(market, lo, hi)
  {
    if market != [] {
      WindowMembers(market[..|market| - 1], lo, hi);
      assert market == market[..|market| - 1] + [market[|market| - 1]];
    }
  }

  lemma {:induction false} WindowAscends(market: seq<Candle>, lo: int, hi: int)
    requires Ascending(market)
    ensures Ascending(Window(market, lo, hi)) && InRange(Window(market, lo, hi), lo, hi)
  {
    WindowMembers(market, lo, hi);
    if market != [] {
      var rest := market[..|market| - 1];
      WindowAscends(rest, lo, hi);
      WindowMembers(rest, lo, hi);
    }
  }

  /** Lowering the upper end to just before the candle at `m` keeps exactly the candles before it. */
  lemma {:induction false} WindowCut(market: seq<Candle>, lo: int, hi: int, m: nat)
    requires Ascending(market) && m < |Window(market, lo, hi)|
    ensures
      var w := Window(market, lo, hi);
      Remaining(market, lo, w[m].openTime - 1, w, m)
  {
    var rest, last := market[..|market| - 1], market[|market| - 1];
    var wr, w := Window(rest, lo, hi), Window(market, lo, hi);
    assert w == wr + if lo <= last.openTime <= hi then [last] else [];
    if m < |wr| {
      WindowCut(rest, lo, hi, m);
      assert w[m] == wr[m] && w[..m] == wr[..m];
      Earlier(market, lo, hi, m);
      assert Window(market, lo, wr[m].openTime - 1) == Window(rest, lo, wr[m].openTime - 1);
    } else {
      assert w[m] == last && w[..m] == wr;
      AllBelow(rest, lo, hi, last.openTime - 1);
      assert Window(market, lo, last.openTime - 1) == Window(rest, lo, last.openTime - 1);
    }
  }

  /** Every candle of the market but the last opened before the last. */
  lemma Earlier(market: seq<Candle>, lo: int, hi: int, m: nat)
    requires Ascending(market) && market != [] && m < |Window(market[..|market| - 1], lo, hi)|
    ensures Window(market[..|market| - 1], lo, hi)[m].openTime < market[|market| - 1].openTime
  {
    WindowMembers(market[..|market| - 1], lo, hi);
  }

  lemma {:induction false} AllBelow(market: seq<Candle>, lo: int, hi: int, cut: int)
    requires cut <= hi && forall k :: 0 <= k < |market| ==> market[k].openTime <= cut
    ensures Window(market, lo, cut) == Window(market, lo, hi)
  {
    if market != [] {
      AllBelow(market[..|market| - 1], lo, hi, cut);
    }
  }

  // ----- sorting and deduplication -----

  lemma InsertAt(r: seq<Candle>, c: Candle, k: nat)
    requires k <= |r|
    ensures multiset(r[..k] + [c] + r[k..]) == multiset(r) + multiset{c}
  {
    assert r == r[..k] + r[k..];
  }

  method Insert(r: seq<Candle>, c: Candle) returns (t: seq<Candle>)
    requires Sorted(r)
    ensures Sorted(t) && multiset(t) == multiset(r) + multiset{c}
  {
    var k := |r|;
    while k > 0 && r[k - 1].openTime > c.openTime
      invariant 0 <= k <= |r|
      invariant forall j :: k <= j < |r| ==> r[j].openTime > c.openTime
    {
      k := k - 1;
    }
    t := r[..k] + [c] + r[k..];
    InsertAt(r, c, k);
  }

  method SortByTime(s: seq<Candle>) returns (r: seq<Candle>)
    ensures Sorted(r) && multiset(r) == multiset(s)
  {
    r := [];
    for i := 0 to |s|
      invariant Sorted(r) && multiset(r) == multiset(s[..i])
    {
      assert s[..i + 1] == s[..i] + [s[i]];
      r := Insert(r, s[i]);
    }
    assert s[..|s|] == s;
  }

  /** Keeps each candle whose time differs from its predecessor's. */
  method Unique(all: seq<Candle>) returns (unique: seq<Candle>)
    ensures Ascending(all) ==> unique == all
  {
    unique := [];
    for i := 0 to |all|
      invariant Ascending(all) ==> unique == all[..i]
    {
      if i == 0 || all[i].openTime != all[i - 1].openTime {
        unique := unique + [all[i]];
      }
    }
  }

  /** The last candles of two sorted arrangements of the same candles coincide. */
  lemma SameLast(r: seq<Candle>, w: seq<Candle>)
    requires Sorted(r) && Ascending(w) && multiset(r) == multiset(w) && |w| > 0
    ensures |r| == |w| && r[|r| - 1] == w[|w| - 1]
  {
    assert |multiset(r)| == |r| && |multiset(w)| == |w|;
    var x, y := r[|r| - 1], w[|w| - 1];
    assert x in multiset(w) && y in multiset(r);
    var j :| 0 <= j < |w| && w[j] == x;
    var k :| 0 <= k < |r| && r[k] == y;
    assert x.openTime <= y.openTime <= x.openTime;
  }

  lemma ButLast(s: seq<Candle>)
    requires |s| > 0
    ensures multiset(s[..|s| - 1]) == multiset(s) - multiset{s[|s| - 1]}
  {
    assert s == s[..|s| - 1] + [s[|s| - 1]];
  }

  lemma PrefixesOrdered(r: seq<Candle>, w: seq<Candle>)
    requires Sorted(r) && Ascending(w) && |r| == |w| > 0
    ensures Sorted(r[..|r| - 1]) && Ascending(w[..|w| - 1])
  {
  }

  /** A sorted rearrangement of candles with distinct times is their ascending order. */
  lemma {:induction false} SortedIsUnique(r: seq<Candle>, w: seq<Candle>)
    requires Sorted(r) && Ascending(w) && multiset(r) == multiset(w)
    ensures r == w
    decreases |w|
  {
    hide Sorted;
    hide Ascending;
    if w == [] {
      assert |multiset(r)| == 0;
    } else {
      SameLast(r, w);
      PrefixesOrdered(r, w);
      ButLast(r);
      ButLast(w);
      SortedIsUnique(r[..|r| - 1], w[..|w| - 1]);
      assert r == r[..|r| - 1] + [r[|r| - 1]] && w == w[..|w| - 1] + [w[|w| - 1]];
    }
  }

  // ----- the loop -----

  function Least(a: int, b: int): int { if a <= b then a else b }

  /** `maxCandles` rounded up to whole pages. */
  function WholePages(maxCandles: int): nat {
    if maxCandles <= 0 then 0 else (maxCandles + PAGE_LIMIT - 1) / PAGE_LIMIT * PAGE_LIMIT
  }

  /** How many of the newest candles in range the loop collects before it stops. */
  function Fetched(available: nat, maxCandles: int): nat {
    Least(available, WholePages(maxCandles))
  }

  /** The result in closed form: of the newest candles collected, the oldest `maxCandles`. */
  function FetchResult(market: seq<Candle>, fromMs: int, toMs: int, maxCandles: int): seq<Candle> {
    var w := Window(market, fromMs, toMs);
    var f := Fetched(|w|, maxCandles);
    w[|w| - f..][..if maxCandles <= 0 then 0 else Least(f, maxCandles)]
  }

  /** The first `n` candles of `w` are still to be requested: they are what lies up to the cursor. */
  ghost predicate Remaining(market: seq<Candle>, fromMs: int, cursor: int, w: seq<Candle>, n: int) {
    0 <= n <= |w| && Window(market, fromMs, cursor) == w[..n]
  }

  /** The rest of `w` has been collected, in whatever order. */
  ghost predicate Held(all: seq<Candle>, w: seq<Candle>, n: int) {
    0 <= n <= |w| && multiset(all) == multiset(w[n..])
  }

  lemma NothingHeld(market: seq<Candle>, fromMs: int, toMs: int)
    ensures
      var w := Window(market, fromMs, toMs);
      Held([], w, |w|) && Remaining(market, fromMs, toMs, w, |w|)
  {
    var w := Window(market, fromMs, toMs);
    assert w[|w|..] == [] && w[..|w|] == w;
  }

  /** The newest `k` of the first `n` candles, oldest first, as a page delivers them. */
  lemma PageIsSlice(market: seq<Candle>, fromMs: int, cursor: int, w: seq<Candle>, n: nat)
    requires Remaining(market, fromMs, cursor, w, n)
    ensures
      var k := Least(n, PAGE_LIMIT);
      && |Page(market, fromMs, cursor)| == k
      && Reverse(Page(market, fromMs, cursor)) == w[n - k..n]
  {
    var k := Least(n, PAGE_LIMIT);
    assert w[..n][n - k..] == w[n - k..n];
  }

  method CollectPage(all: seq<Candle>, page: seq<Candle>, fromMs: int, toMs: int) returns (r: seq<Candle>)
    requires InRange(page, fromMs, toMs)
    ensures r == all + Reverse(page)
  {
    r := all;
    var i := |page| - 1;
    while i >= 0
      invariant -1 <= i < |page|
      invariant r == all + Reverse(page)[..|page| - 1 - i]
      decreases i + 1
    {
      if page[i].openTime >= fromMs && page[i].openTime <= toMs {
        r := r + [page[i]];
      }
      i := i - 1;
    }
  }

  method Oldest(page: seq<Candle>) returns (t: int)
    requires |page| > 0
    ensures exists k :: 0 <= k < |page| && page[k].openTime == t
    ensures forall k :: 0 <= k < |page| ==> t <= page[k].openTime
  {
    t := page[0].openTime;
    for i := 1 to |page|
      invariant exists k :: 0 <= k < i && page[k].openTime == t
      invariant forall k :: 0 <= k < i ==> t <= page[k].openTime
    {
      if page[i].openTime < t { t := page[i].openTime; }
    }
  }

  /** A page that is a reversed slice of an ascending window lists it backwards, the oldest candle last. */
  lemma SliceTimes(page: seq<Candle>, w: seq<Candle>, n: nat)
    requires 0 < |page| <= n <= |w| && Reverse(page) == w[n - |page|..n] && Ascending(w)
    ensures forall k :: 0 <= k < |page| ==> page[k] == w[n - 1 - k]
    ensures forall k :: 0 <= k < |page| ==> w[n - |page|].openTime <= page[k].openTime
    ensures page[|page| - 1] == w[n - |page|]
  {
    forall k | 0 <= k < |page| ensures page[k] == w[n - 1 - k] {
      assert page[k] == Reverse(page)[|page| - 1 - k];
    }
  }

  /** One response handled: its candles collected, oldest first, and its oldest time. */
  method TakePage(page: seq<Candle>, all: seq<Candle>, fromMs: int, toMs: int, ghost w: seq<Candle>, ghost n: nat)
    returns (next: seq<Candle>, oldest: int)
    requires 0 < |page| <= n <= |w| && Reverse(page) == w[n - |page|..n] && Ascending(w)
    requires InRange(w, fromMs, toMs) && Held(all, w, n)
    ensures Held(next, w, n - |page|) && |next| == |all| + |page|
    ensures oldest == w[n - |page|].openTime
  {
    hide Reverse;
    hide Held;
    SliceTimes(page, w, n);
    MoreHeld(all, w, n, |page|);
    next := CollectPage(all, page, fromMs, toMs);
    oldest := Oldest(page);
  }

  /** A loop that stopped at the cap after whole pages, or earlier with nothing left, fetched what it should. */
  lemma FetchedAt(available: nat, maxCandles: int, pages: nat, collected: nat)
    requires collected <= available
    requires
      || (collected == pages * PAGE_LIMIT && collected >= maxCandles
          && (pages > 0 ==> (pages - 1) * PAGE_LIMIT < maxCandles))
      || (collected == available <= (pages + 1) * PAGE_LIMIT && pages * PAGE_LIMIT < maxCandles)
    ensures collected == Fetched(available, maxCandles)
  {
  }

  lemma MoreHeld(all: seq<Candle>, w: seq<Candle>, n: nat, k: nat)
    requires k <= n && Held(all, w, n)
    ensures Held(all + w[n - k..n], w, n - k)
  {
    assert w[n - k..] == w[n - k..n] + w[n..];
  }

  /**
   * The oldest candle of a page of `k` lies at or before the cursor, and at the start only if nothing is left;
   * a cursor just before it leaves exactly the candles before it.
   */
  lemma AfterPage(market: seq<Candle>, fromMs: int, toMs: int, cursor: int, n: nat, k: nat)
    requires Ascending(market) && 0 < k <= n && Remaining(market, fromMs, cursor, Window(market, fromMs, toMs), n)
    ensures
      var w := Window(market, fromMs, toMs);
      && fromMs <= w[n - k].openTime <= cursor
      && (n - k > 0 ==> fromMs < w[n - k].openTime)
      && Remaining(market, fromMs, w[n - k].openTime - 1, w, n - k)
  {
    hide Window;
    var w := Window(market, fromMs, toMs);
    WindowAscends(market, fromMs, cursor);
    WindowCut(market, fromMs, toMs, n - k);
    assert w[..n][n - k] == w[n - k] && w[..n][0] == w[0];
  }

  /** The request loop: collects whole pages from the newest backwards. */
  method Collect(market: seq<Candle>, fromMs: int, toMs: int, maxCandles: int) returns (all: seq<Candle>)
    requires Ascending(market)
    ensures |all| == Fetched(|Window(market, fromMs, toMs)|, maxCandles)
    ensures Held(all, Window(market, fromMs, toMs), |Window(market, fromMs, toMs)| - |all|)
  {
    hide Window;
    hide Page;
    hide Reverse;
    hide Fetched;
    hide Ascending;
    hide Held;
    hide Remaining;
    hide InRange;
    all := [];
    var cursor := toMs;
    ghost var w := Window(market, fromMs, toMs);
    ghost var pages := 0;
    NothingHeld(market, fromMs, toMs);
    WindowAscends(market, fromMs, toMs);
    while |all| < maxCandles
      invariant |all| == pages * PAGE_LIMIT <= |w|
      invariant pages > 0 ==> (pages - 1) * PAGE_LIMIT < maxCandles
      invariant Held(all, w, |w| - |all|)
      invariant Remaining(market, fromMs, cursor, w, |w| - |all|)
      decreases cursor - fromMs
    {
      ghost var n := |w| - |all|;
      PageIsSlice(market, fromMs, cursor, w, n);
      var page := Page(market, fromMs, cursor);
      if |page| == 0 {
        FetchedAt(|w|, maxCandles, pages, |all|);
        return;
      }
      AfterPage(market, fromMs, toMs, cursor, n, |page|);
      var oldest;
      all, oldest := TakePage(page, all, fromMs, toMs, w, n);
      if oldest <= fromMs || |page| < PAGE_LIMIT {
        FetchedAt(|w|, maxCandles, pages, |all|);
        return;
      }
      cursor := oldest - 1;
      pages := pages + 1;
    }
    FetchedAt(|w|, maxCandles, pages, |all|);
  }

  method FetchCandles(market: seq<Candle>, fromMs: int, toMs: int, maxCandles: int) returns (candles: seq<Candle>)
    requires Ascending(market)
    ensures candles == FetchResult(market, fromMs, toMs, maxCandles)
  {
    hide Window;
    var all := Collect(market, fromMs, toMs, maxCandles);
    ghost var w := Window(market, fromMs, toMs);
    WindowAscends(market, fromMs, toMs);
    var sorted := SortByTime(all);
    SortedIsUnique(sorted, w[|w| - |all|..]);
    var unique := Unique(sorted);
    candles := if maxCandles <= 0 then [] else unique[..Least(|unique|, maxCandles)];
  }

  // ----- what callers get -----

  /** Ascending, in range, within the cap; and all of the range exactly when the range fits the cap. */
  lemma ResultProperties(market: seq<Candle>, fromMs: int, toMs: int, maxCandles: nat)
    requires Ascending(market)
    ensures
      var r, w := FetchResult(market, fromMs, toMs, maxCandles), Window(market, fromMs, toMs);
      && Ascending(r)
      && |r| == Least(|w|, maxCandles)
      && (forall k :: 0 <= k < |r| ==> fromMs <= r[k].openTime <= toMs && r[k] in market)
      && (r == w <==> |w| <= maxCandles)
  {
    WindowAscends(market, fromMs, toMs);
    WindowMembers(market, fromMs, toMs);
    PagesCover(maxCandles);
  }

  lemma PagesCover(maxCandles: nat)
    ensures maxCandles <= WholePages(maxCandles) < maxCandles + PAGE_LIMIT
    ensures WholePages(maxCandles) == maxCandles <==> maxCandles % PAGE_LIMIT == 0
  {
  }

  /**
   * When the range holds more than the cap, the newest candles are the ones dropped: the result ends with the
   * newest candle exactly if the range fits or the cap is a whole number of pages.
   */
  lemma NewestIsKeptExactly(market: seq<Candle>, fromMs: int, toMs: int, maxCandles: nat)
    requires Ascending(market) && maxCandles > 0 && |Window(market, fromMs, toMs)| > 0
    ensures
      var r, w := FetchResult(market, fromMs, toMs, maxCandles), Window(market, fromMs, toMs);
      && |r| > 0
      && (r[|r| - 1] == w[|w| - 1] <==> |w| <= maxCandles || maxCandles % 1000 == 0)
  {
    hide Window;
    hide WholePages;
    WindowAscends(market, fromMs, toMs);
    PagesCover(maxCandles);
    var r, w := FetchResult(market, fromMs, toMs, maxCandles), Window(market, fromMs, toMs);
    var f := Fetched(|w|, maxCandles);
    assert r[|r| - 1] == w[|w| - f + Least(f, maxCandles) - 1];
  }

  /** With a cap of one and two candles in range, both are fetched and the older one is returned. */
  lemma NewestDroppedExample()
    ensures
      var older, newer := Candle(1, 1.0, 1.0, 1.0, 1.0, 0.0), Candle(2, 1.0, 1.0, 1.0, 1.0, 0.0);
      FetchResult([older, newer], 0, 10, 1) == [older]
  {
    var older, newer := Candle(1, 1.0, 1.0, 1.0, 1.0, 0.0), Candle(2, 1.0, 1.0, 1.0, 1.0, 0.0);
    assert [older, newer][..1] == [older] && [older][..0] == [];
    assert Window([older], 0, 10) == [older];
    assert Window([older, newer], 0, 10) == [older, newer];
  }
}
