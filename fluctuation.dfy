/**
 * The price-drop analysis of a price history: for every day, the lowest price on that day or any
 * later day, the lowest price within each of a list of look-ahead windows, and the drop ratio
 * each of these lows means relative to the day's own price.
 */
module Fluctuation {
  import opened Common

  /** What `Fluctuation::new` builds; nothing changes it afterwards. */
  datatype Fluctuation = Fluctuation(priceRows: seq<Row>, ammLastDaysAnalysis: seq<nat>,
                                     laterLowestPrice: seq<seq<real>>, maxLaterDropRatio: seq<seq<real>>)

  /** One monotonic-stack entry: a price and the day it was seen. */
  type Entry = (real, nat)

  function Min(a: nat, b: nat): nat
  {
    if a <= b then a else b
  }

  // ---------------------------------------------------------------------------------------
  // Specification
  // ---------------------------------------------------------------------------------------

  /** Every look-ahead window spans at least one day. */
  predicate WindowsOk(days: seq<nat>)
  {
    forall j :: 0 <= j < |days| ==> days[j] >= 1
  }

  /** The drop ratios divide by every day's price. */
  predicate PricesNonZero(rows: seq<Row>)
  {
    forall i :: 0 <= i < |rows| ==> rows[i].price != 0.0
  }

  /** The lowest price of the days lo .. hi - 1, taken from the back as the scan does. */
  function MinPrice(rows: seq<Row>, lo: nat, hi: nat): real
    requires lo < hi <= |rows|
    decreases hi - lo
  {
    if lo + 1 == hi then rows[lo].price
    else
      var rest := MinPrice(rows, lo + 1, hi);
      if rows[lo].price < rest then rows[lo].price else rest
  }

  /** `x` is the minimum of the prices of days lo .. hi - 1. */
  ghost predicate IsMinOf(x: real, rows: seq<Row>, lo: nat, hi: nat)
    requires lo < hi <= |rows|
  {
    && (forall m :: lo <= m < hi ==> x <= rows[m].price)
    && (exists m :: lo <= m < hi && rows[m].price == x)
  }

  /** Row i of `later_lowest_price`: the low from day i on, then the low of each window from day i. */
  function LowestRow(rows: seq<Row>, days: seq<nat>, i: nat): seq<real>
    requires i < |rows| && WindowsOk(days)
  {
    [MinPrice(rows, i, |rows|)] +
    seq(|days|, j requires 0 <= j < |days| => MinPrice(rows, i, Min(i + days[j], |rows|)))
  }

  /** Row i of `max_later_drop_ratio`: the share of day i's price each low gives up. */
  function DropRow(rows: seq<Row>, i: nat, lows: seq<real>): seq<real>
    requires i < |rows| && rows[i].price != 0.0
  {
    seq(|lows|, j requires 0 <= j < |lows| => 1.0 - lows[j] / rows[i].price)
  }

  function LowestTable(rows: seq<Row>, days: seq<nat>): seq<seq<real>>
    requires WindowsOk(days)
  {
    seq(|rows|, i requires 0 <= i < |rows| => LowestRow(rows, days, i))
  }

  function DropTable(rows: seq<Row>, days: seq<nat>): seq<seq<real>>
    requires WindowsOk(days) && PricesNonZero(rows)
  {
    seq(|rows|, i requires 0 <= i < |rows| => DropRow(rows, i, LowestRow(rows, days, i)))
  }

  // ---------------------------------------------------------------------------------------
  // Properties of the specification
  // ---------------------------------------------------------------------------------------

  lemma {:induction false} MinPriceLower(rows: seq<Row>, lo: nat, hi: nat, m: nat)
    requires lo <= m < hi <= |rows|
    ensures MinPrice(rows, lo, hi) <= rows[m].price
    decreases hi - lo
  {
    if m > lo {
      MinPriceLower(rows, lo + 1, hi, m);
    }
  }

  /** The minimum is the price of some day of the range. */
  lemma {:induction false} MinPriceAt(rows: seq<Row>, lo: nat, hi: nat) returns (m: nat)
    requires lo < hi <= |rows|
    ensures lo <= m < hi && rows[m].price == MinPrice(rows, lo, hi)
    decreases hi - lo
  {
    if lo + 1 == hi || rows[lo].price < MinPrice(rows, lo + 1, hi) {
      m := lo;
    } else {
      m := MinPriceAt(rows, lo + 1, hi);
    }
  }

  lemma MinPriceIsMin(rows: seq<Row>, lo: nat, hi: nat)
    requires lo < hi <= |rows|
    ensures IsMinOf(MinPrice(rows, lo, hi), rows, lo, hi)
  {
    forall m | lo <= m < hi
      ensures MinPrice(rows, lo, hi) <= rows[m].price
    {
      MinPriceLower(rows, lo, hi, m);
    }
    var m := MinPriceAt(rows, lo, hi);
  }

  /** Widening the range can only lower the minimum. */
  lemma {:induction false} MinPriceWiden(rows: seq<Row>, lo: nat, mid: nat, hi: nat)
    requires lo < mid <= hi <= |rows|
    ensures MinPrice(rows, lo, hi) <= MinPrice(rows, lo, mid)
    decreases mid - lo
  {
    if lo + 1 < mid {
      MinPriceWiden(rows, lo + 1, mid, hi);
    } else if hi > mid {
      MinPriceLower(rows, lo, hi, lo);
    }
  }

  /**
   * The first entry of row i is the lowest price from day i on; entry j + 1 is the lowest price of
   * the `days[j]`-day window from day i, cut off at the end of the history.
   */
  lemma LowestTableIsMinimum(rows: seq<Row>, days: seq<nat>, i: nat)
    requires WindowsOk(days) && i < |rows|
    ensures |LowestTable(rows, days)| == |rows| && |LowestTable(rows, days)[i]| == |days| + 1
    ensures IsMinOf(LowestTable(rows, days)[i][0], rows, i, |rows|)
    ensures forall j :: 0 <= j < |days| ==>
      IsMinOf(LowestTable(rows, days)[i][j + 1], rows, i, Min(i + days[j], |rows|))
  {
    MinPriceIsMin(rows, i, |rows|);
    forall j | 0 <= j < |days|
      ensures IsMinOf(LowestTable(rows, days)[i][j + 1], rows, i, Min(i + days[j], |rows|))
    {
      MinPriceIsMin(rows, i, Min(i + days[j], |rows|));
    }
  }

  /** Both tables have a row per day and an entry per window plus one; each drop entry is the ratio its low gives. */
  lemma DropTableIsRatio(rows: seq<Row>, days: seq<nat>, i: nat, j: nat)
    requires WindowsOk(days) && PricesNonZero(rows) && i < |rows| && j <= |days|
    ensures |DropTable(rows, days)| == |LowestTable(rows, days)| == |rows|
    ensures |DropTable(rows, days)[i]| == |LowestTable(rows, days)[i]| == |days| + 1
    ensures DropTable(rows, days)[i][j] == 1.0 - LowestTable(rows, days)[i][j] / rows[i].price
  {
  }

  /** A longer window reaches at least as low. */
  lemma LongerWindowLower(rows: seq<Row>, days: seq<nat>, i: nat, j: nat, k: nat)
    requires WindowsOk(days) && i < |rows| && j < |days| && k < |days| && days[j] <= days[k]
    ensures LowestTable(rows, days)[i][k + 1] <= LowestTable(rows, days)[i][j + 1]
    ensures LowestTable(rows, days)[i][0] <= LowestTable(rows, days)[i][k + 1]
  {
    MinPriceWiden(rows, i, Min(i + days[j], |rows|), Min(i + days[k], |rows|));
    MinPriceWiden(rows, i, Min(i + days[k], |rows|), |rows|);
  }

  /** With positive prices every drop ratio lies in [0, 1): a low is positive and never above the day's price. */
  lemma DropRatioBounds(rows: seq<Row>, days: seq<nat>, i: nat, j: nat)
    requires WindowsOk(days) && PricesNonZero(rows)
    requires forall m :: 0 <= m < |rows| ==> rows[m].price > 0.0
    requires i < |rows| && j <= |days|
    ensures 0.0 <= DropTable(rows, days)[i][j] < 1.0
  {
    var low := LowestTable(rows, days)[i][j];
    var hi := if j == 0 then |rows| else Min(i + days[j - 1], |rows|);
    assert low == MinPrice(rows, i, hi);
    MinPriceLower(rows, i, hi, i);
    var m := MinPriceAt(rows, i, hi);
    var today := rows[i].price;
    assert DropTable(rows, days)[i][j] == 1.0 - low / today;
    RatioInUnit(low, today);
  }

  lemma RatioInUnit(a: real, d: real)
    requires 0.0 < a <= d
    ensures 0.0 < a / d <= 1.0
  {
    assert (a / d) * d == a;
  }

  // ---------------------------------------------------------------------------------------
  // The monotonic stack
  // ---------------------------------------------------------------------------------------

  /**
   * Each entry above the bottom holds the lowest price of the days from i up to (not including)
   * the day of the entry below it, and days decrease towards the top.
   */
  ghost predicate Chain(rows: seq<Row>, i: nat, s: seq<Entry>)
    decreases |s|
  {
    |s| <= 1 ||
    (var below, top := s[|s| - 2], s[|s| - 1];
     && i <= top.1 < below.1 <= |rows|
     && top.0 == MinPrice(rows, i, below.1)
     && Chain(rows, i, s[..|s| - 1]))
  }

  /**
   * The stack after day i is pushed: the bottom entry holds the lowest price from day i on, the
   * entries form a `Chain`, and the top is day i itself.
   */
  ghost predicate StackOk(rows: seq<Row>, i: nat, s: seq<Entry>)
  {
    && i < |rows| && |s| > 0 && s[|s| - 1] == (rows[i].price, i)
    && (forall p :: 0 <= p < |s| ==> i <= s[p].1 < |rows| && s[p].0 == rows[s[p].1].price)
    && s[0].0 == MinPrice(rows, i, |rows|)
    && Chain(rows, i, s)
  }

  /** One link of a chain. */
  lemma {:induction false} ChainAt(rows: seq<Row>, i: nat, s: seq<Entry>, q: nat)
    requires Chain(rows, i, s) && 0 < q < |s|
    ensures i <= s[q].1 < s[q - 1].1 <= |rows| && s[q].0 == MinPrice(rows, i, s[q - 1].1)
    decreases |s|
  {
    if q < |s| - 1 {
      var rest := s[..|s| - 1];
      ChainAt(rows, i, rest, q);
      assert rest[q] == s[q] && rest[q - 1] == s[q - 1];
    }
  }

  /** A chain of day i + 1 stays a chain of day i while day i's price is not below its entries. */
  lemma {:induction false} ChainShift(rows: seq<Row>, i: nat, t: seq<Entry>, r: nat)
    requires i < |rows| && Chain(rows, i + 1, t) && r <= |t|
    requires forall q :: 0 <= q < r ==> t[q].0 <= rows[i].price
    ensures Chain(rows, i, t[..r])
    decreases r
  {
    if r > 1 {
      ChainShift(rows, i, t, r - 1);
      ChainAt(rows, i + 1, t, r - 1);
      var u := t[..r];
      assert u[..r - 1] == t[..r - 1] && u[r - 1] == t[r - 1] && u[r - 2] == t[r - 2];
    }
  }

  /** Prices never decrease and days strictly decrease from the bottom of the stack to its top. */
  lemma {:induction false} StackSorted(rows: seq<Row>, i: nat, s: seq<Entry>, p: nat, q: nat)
    requires StackOk(rows, i, s) && p < q < |s|
    ensures s[p].0 <= s[q].0 && s[p].1 > s[q].1
    decreases q - p
  {
    ChainAt(rows, i, s, q);
    var below := s[q - 1];
    if q - 1 == 0 {
      MinPriceWiden(rows, i, below.1, |rows|);
    } else {
      ChainAt(rows, i, s, q - 1);
      MinPriceWiden(rows, i, below.1, s[q - 2].1);
    }
    if p < q - 1 {
      StackSorted(rows, i, s, p, q - 1);
    }
  }

  lemma StackSorted0(rows: seq<Row>, i: nat, s: seq<Entry>, q: nat)
    requires StackOk(rows, i, s) && q < |s|
    ensures s[0].0 <= s[q].0
  {
    if q > 0 {
      StackSorted(rows, i, s, 0, q);
    }
  }

  /**
   * Popping every entry whose price is above day i's and pushing day i turns the stack of day
   * i + 1 into the stack of day i.
   */
  lemma StackPush(rows: seq<Row>, i: nat, t: seq<Entry>, r: nat)
    requires i < |rows|
    requires if i + 1 == |rows| then t == [] else StackOk(rows, i + 1, t)
    requires r <= |t|
    requires r > 0 ==> t[r - 1].0 <= rows[i].price
    requires r < |t| ==> rows[i].price < t[r].0
    ensures StackOk(rows, i, t[..r] + [(rows[i].price, i)])
  {
    var x := (rows[i].price, i);
    var s := t[..r] + [x];
    assert s[..r] == t[..r] && s[r] == x;
    if r == 0 {
      if t != [] {
        assert t[0].0 == MinPrice(rows, i + 1, |rows|);
      }
    } else {
      assert s[0] == t[0];
      forall q | 0 <= q < r
        ensures t[q].0 <= rows[i].price
      {
        if q < r - 1 {
          StackSorted(rows, i + 1, t, q, r - 1);
        }
      }
      StackSorted0(rows, i + 1, t, r - 1);
      ChainShift(rows, i, t, r);
      if r < |t| {
        ChainAt(rows, i + 1, t, r);
      }
    }
  }

  /** Stack positions below `q` hold days at or after `bound`. */
  predicate PtrBelow(s: seq<Entry>, q: nat, bound: nat)
  {
    forall p :: 0 <= p < q && p < |s| ==> s[p].1 >= bound
  }

  /**
   * Below the top of a non-empty stack, every window's pointer stops short of the entries whose
   * day is `base` plus the window's length or later.
   */
  predicate BelowTop(s: seq<Entry>, pointers: seq<nat>, days: seq<nat>, base: nat)
  {
    && |s| > 0 && |pointers| == |days|
    && forall j :: 0 <= j < |days| ==> PtrBelow(s[..|s| - 1], pointers[j], base + days[j])
  }

  lemma PtrBelowPrefix(s: seq<Entry>, r: nat, q: nat, bound: nat)
    requires r <= |s| && PtrBelow(s, q, bound)
    ensures PtrBelow(s[..r], q, bound)
  {
  }

  /**
   * The first stack entry whose day lies inside the window of `d` days from day i holds the
   * window's lowest price.
   */
  lemma WindowLowest(rows: seq<Row>, i: nat, s: seq<Entry>, p: nat, d: nat)
    requires StackOk(rows, i, s) && p < |s| && PtrBelow(s, p, i + d) && s[p].1 < i + d
    ensures i < Min(i + d, |rows|) && s[p].0 == MinPrice(rows, i, Min(i + d, |rows|))
  {
    var e := Min(i + d, |rows|);
    var k := s[p].1;
    if p == 0 {
      MinPriceWiden(rows, i, e, |rows|);
    } else {
      var below := s[p - 1];
      ChainAt(rows, i, s, p);
      assert below.1 >= i + d;
      MinPriceWiden(rows, i, e, below.1);
    }
    MinPriceLower(rows, i, e, k);
  }

  /** A row assembled entry by entry is the specified row. */
  lemma LowestRowIs(rows: seq<Row>, days: seq<nat>, i: nat, windowLows: seq<real>)
    requires WindowsOk(days) && i < |rows| && |windowLows| == |days|
    requires forall j :: 0 <= j < |days| ==> windowLows[j] == MinPrice(rows, i, Min(i + days[j], |rows|))
    ensures [MinPrice(rows, i, |rows|)] + windowLows == LowestRow(rows, days, i)
  {
  }

  lemma DropRowIs(rows: seq<Row>, i: nat, lows: seq<real>, drops: seq<real>)
    requires i < |rows| && rows[i].price != 0.0 && |drops| == |lows|
    requires forall j :: 0 <= j < |lows| ==> drops[j] == 1.0 - lows[j] / rows[i].price
    ensures drops == DropRow(rows, i, lows)
  {
  }

  /** The tables once the days from `index` on are analysed; earlier rows are still empty. */
  function LowestFrom(rows: seq<Row>, days: seq<nat>, index: nat): seq<seq<real>>
    requires WindowsOk(days)
  {
    seq(|rows|, i requires 0 <= i < |rows| => if i < index then [] else LowestRow(rows, days, i))
  }

  function DropFrom(rows: seq<Row>, days: seq<nat>, index: nat): seq<seq<real>>
    requires WindowsOk(days) && PricesNonZero(rows)
  {
    seq(|rows|, i requires 0 <= i < |rows| => if i < index then [] else DropRow(rows, i, LowestRow(rows, days, i)))
  }

  lemma FromStep(rows: seq<Row>, days: seq<nat>, index: nat)
    requires WindowsOk(days) && PricesNonZero(rows) && 0 < index <= |rows|
    ensures LowestFrom(rows, days, index - 1) ==
            LowestFrom(rows, days, index)[index - 1 := LowestRow(rows, days, index - 1)]
    ensures DropFrom(rows, days, index - 1) ==
            DropFrom(rows, days, index)[index - 1 := DropRow(rows, index - 1, LowestRow(rows, days, index - 1))]
  {
  }

  lemma FromEnds(rows: seq<Row>, days: seq<nat>)
    requires WindowsOk(days) && PricesNonZero(rows)
    ensures LowestFrom(rows, days, |rows|) == seq(|rows|, _ => [])
    ensures DropFrom(rows, days, |rows|) == seq(|rows|, _ => [])
    ensures LowestFrom(rows, days, 0) == LowestTable(rows, days)
    ensures DropFrom(rows, days, 0) == DropTable(rows, days)
  {
  }

  // ---------------------------------------------------------------------------------------
  // The constructor
  // ---------------------------------------------------------------------------------------

  /**
   * `Fluctuation::new`: one backwards pass keeps the running suffix minimum, a stack of the days
   * that are lower than every day pushed after them, and per window a pointer to the first stack
   * entry inside the window, which only ever moves towards the top.
   */
  method New(priceRows: seq<Row>, ammLastDaysAnalysis: seq<nat>) returns (r: Fluctuation)
    requires PricesNonZero(priceRows) && WindowsOk(ammLastDaysAnalysis)
    ensures r == Fluctuation(priceRows, ammLastDaysAnalysis, LowestTable(priceRows, ammLastDaysAnalysis),
                             DropTable(priceRows, ammLastDaysAnalysis))
  {
    if |priceRows| == 0 {
      return Fluctuation([], ammLastDaysAnalysis, [], []);
    }
    var n := |priceRows|;
    var days := ammLastDaysAnalysis;
    var laterLowestPrice: seq<seq<real>> := seq(n, _ => []);
    var maxLaterDropRatio: seq<seq<real>> := seq(n, _ => []);
    var lowestPriceStack: seq<Entry> := [];
    var index := n;
    var stackIndex: seq<nat> := seq(|days|, _ => 0);
    var lowestPrice := priceRows[n - 1].price;
    FromEnds(priceRows, days);
    while index > 0
      invariant index <= n && |stackIndex| == |days|
      invariant index == n ==> lowestPriceStack == [] && lowestPrice == priceRows[n - 1].price
      invariant index < n ==> StackOk(priceRows, index, lowestPriceStack)
      invariant index < n ==> lowestPrice == MinPrice(priceRows, index, n)
      invariant laterLowestPrice == LowestFrom(priceRows, days, index)
      invariant maxLaterDropRatio == DropFrom(priceRows, days, index)
      invariant forall j :: 0 <= j < |days| ==> PtrBelow(lowestPriceStack, stackIndex[j], index + days[j])
    {
      index := index - 1;
      var todayClose := priceRows[index].price;
      if todayClose < lowestPrice {
        lowestPrice := todayClose;
      }
      lowestPriceStack := PushToday(priceRows, days, index, lowestPriceStack, stackIndex);
      var windowLows, windowDrops;
      windowLows, windowDrops, stackIndex := WindowLows(priceRows, days, index, lowestPriceStack, stackIndex);
      var lows := [lowestPrice] + windowLows;
      var drops := [1.0 - lowestPrice / todayClose] + windowDrops;
      LowestRowIs(priceRows, days, index, windowLows);
      DropRowIs(priceRows, index, lows, drops);
      FromStep(priceRows, days, index + 1);
      laterLowestPrice := laterLowestPrice[index := lows];
      maxLaterDropRatio := maxLaterDropRatio[index := drops];
    }
    r := Fluctuation(priceRows, days, laterLowestPrice, maxLaterDropRatio);
  }

  /**
   * Today's stack update in `new`: the entries priced above today's price are popped and today is
   * pushed; the window pointers still point at entries below the new top.
   */
  method PushToday(rows: seq<Row>, days: seq<nat>, index: nat, stack: seq<Entry>, pointers: seq<nat>)
    returns (pushed: seq<Entry>)
    requires index < |rows| && |pointers| == |days|
    requires if index + 1 == |rows| then stack == [] else StackOk(rows, index + 1, stack)
    requires forall j :: 0 <= j < |days| ==> PtrBelow(stack, pointers[j], index + 1 + days[j])
    ensures StackOk(rows, index, pushed)
    ensures BelowTop(pushed, pointers, days, index + 1)
  {
    var kept := PopAbove(stack, rows[index].price);
    StackPush(rows, index, stack, |kept|);
    forall j | 0 <= j < |days|
      ensures PtrBelow(kept, pointers[j], index + 1 + days[j])
    {
      PtrBelowPrefix(stack, |kept|, pointers[j], index + 1 + days[j]);
    }
    pushed := kept + [(rows[index].price, index)];
    assert pushed[..|kept|] == kept;
  }

  /** The pointer scan of `new`: skips the stack entries whose day lies beyond the window. */
  method ScanToWindow(stack: seq<Entry>, start: nat, rangeMax: nat) returns (previous: nat)
    requires start < |stack| && stack[|stack| - 1].1 < rangeMax && PtrBelow(stack, start, rangeMax)
    ensures start <= previous < |stack| && stack[previous].1 < rangeMax && PtrBelow(stack, previous, rangeMax)
  {
    previous := start;
    while stack[previous].1 >= rangeMax
      invariant start <= previous < |stack| && PtrBelow(stack, previous, rangeMax)
      decreases |stack| - previous
    {
      previous := previous + 1;
    }
  }

  /** The inner `while let` of `new`: pops every entry priced above today's price. */
  method PopAbove(stack: seq<Entry>, todayClose: real) returns (kept: seq<Entry>)
    ensures |kept| <= |stack| && kept == stack[..|kept|]
    ensures |kept| > 0 ==> kept[|kept| - 1].0 <= todayClose
    ensures |kept| < |stack| ==> todayClose < stack[|kept|].0
  {
    kept := stack;
    while |kept| > 0 && todayClose < kept[|kept| - 1].0
      invariant |kept| <= |stack| && kept == stack[..|kept|]
      invariant |kept| < |stack| ==> todayClose < stack[|kept|].0
      decreases |kept|
    {
      kept := kept[..|kept| - 1];
    }
  }

  /**
   * The `for j` loop of `new` on day `index`: each window's pointer moves up to the first stack
   * entry inside the window, whose price is the window's low.
   */
  method WindowLows(rows: seq<Row>, days: seq<nat>, index: nat, stack: seq<Entry>, pointers: seq<nat>)
    returns (lows: seq<real>, drops: seq<real>, stackIndex: seq<nat>)
    requires WindowsOk(days) && StackOk(rows, index, stack) && rows[index].price != 0.0
    requires BelowTop(stack, pointers, days, index + 1)
    ensures |lows| == |days| && |drops| == |days| && |stackIndex| == |days|
    ensures forall j :: 0 <= j < |days| ==> lows[j] == MinPrice(rows, index, Min(index + days[j], |rows|))
    ensures forall j :: 0 <= j < |days| ==> drops[j] == 1.0 - lows[j] / rows[index].price
    ensures forall j :: 0 <= j < |days| ==> stackIndex[j] < |stack| && stack[stackIndex[j]].1 < index + days[j]
    ensures forall j :: 0 <= j < |days| ==> PtrBelow(stack, stackIndex[j], index + days[j])
  {
    ghost var kept := stack[..|stack| - 1];
    lows, drops, stackIndex := [], [], pointers;
    for j := 0 to |days|
      invariant |lows| == j && |drops| == j
      invariant forall j' :: 0 <= j' < j ==> lows[j'] == MinPrice(rows, index, Min(index + days[j'], |rows|))
      invariant forall j' :: 0 <= j' < j ==> drops[j'] == 1.0 - lows[j'] / rows[index].price
      invariant |stackIndex| == |days|
      invariant forall j' :: 0 <= j' < j ==> stackIndex[j'] < |stack| && stack[stackIndex[j']].1 < index + days[j']
      invariant forall j' :: 0 <= j' < j ==> PtrBelow(stack, stackIndex[j'], index + days[j'])
      invariant forall j' :: j <= j' < |days| ==> stackIndex[j'] == pointers[j']
    {
      var amm := days[j];
      var previous := stackIndex[j];
      if previous >= |stack| {
        previous := |stack| - 1;
      }
      var rangeMax := index + amm;
      previous := ScanToWindow(stack, previous, rangeMax);
      stackIndex := stackIndex[j := previous];
      var low := stack[previous].0;
      WindowLowest(rows, index, stack, previous, amm);
      lows := lows + [low];
      drops := drops + [1.0 - low / rows[index].price];
    }
  }
}
