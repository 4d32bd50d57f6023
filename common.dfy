/** Types and constants shared by every part of the simulation. */
module Common {

  /** One record of the price history: a date and the asset's closing price. */
  datatype Row = Row(date: string, price: real)

  /** A trade log: (price, coins) pairs; a negative coin amount is a sale. */
  type BuyLogs = seq<(real, real)>

  /** Number of ticks (days) in one funding round. */
  const DAYS_PER_ROUND: nat := 30

  /** The budget of one round and the round's length, as the driver supplies them. */
  const DOLLAR_COST_AVERAGE_SUPPLY: (real, nat) := (2000.0, DAYS_PER_ROUND)

  datatype Option<+T> = None | Some(value: T)

  /** Sum of a sequence of reals, added from the front. */
  function Sum(s: seq<real>): real
  {
    if s == [] then 0.0 else Sum(s[..|s| - 1]) + s[|s| - 1]
  }

  lemma SumAppend(s: seq<real>, x: real)
    ensures Sum(s + [x]) == Sum(s) + x
  {
    assert (s + [x])[..|s|] == s;
  }

  lemma SumPrefixStep(s: seq<real>, i: nat)
    requires i < |s|
    ensures Sum(s[..i + 1]) == Sum(s[..i]) + s[i]
  {
    assert s[..i + 1] == s[..i] + [s[i]];
    SumAppend(s[..i], s[i]);
  }

  /** Sum of the coin amounts recorded in a log. */
  function LoggedCoins(log: BuyLogs): real
  {
    if log == [] then 0.0 else log[0].1 + LoggedCoins(log[1..])
  }

  /** Sum of the cash values (price times coins) recorded in a log. */
  function LoggedCash(log: BuyLogs): real
  {
    if log == [] then 0.0 else log[0].0 * log[0].1 + LoggedCash(log[1..])
  }

  lemma {:induction false} LoggedCoinsAppend(a: BuyLogs, b: BuyLogs)
    ensures LoggedCoins(a + b) == LoggedCoins(a) + LoggedCoins(b)
  {
    if a != [] {
      assert (a + b)[1..] == a[1..] + b;
      LoggedCoinsAppend(a[1..], b);
    } else {
      assert a + b == b;
    }
  }

  lemma {:induction false} LoggedCashAppend(a: BuyLogs, b: BuyLogs)
    ensures LoggedCash(a + b) == LoggedCash(a) + LoggedCash(b)
  {
    if a != [] {
      assert (a + b)[1..] == a[1..] + b;
      LoggedCashAppend(a[1..], b);
    } else {
      assert a + b == b;
    }
  }

  // Real-arithmetic steps the solver does not find unaided.

  lemma DivSub(a: real, b: real, d: real)
    requires d != 0.0
    ensures (a - b) / d == a / d - b / d
  {
    assert (a / d) * d == a;
    assert (b / d) * d == b;
    assert ((a - b) / d) * d == a - b;
  }

  lemma MulDivCancel(a: real, d: real)
    requires d != 0.0
    ensures d * (a / d) == a
  {
  }

  lemma MulCancelDiv(a: real, d: real)
    requires d != 0.0
    ensures (d * a) / d == a
  {
  }

  lemma DivMonotone(a: real, b: real, d: real)
    requires a <= b && d > 0.0
    ensures a / d <= b / d
  {
    DivSub(b, a, d);
    assert (b - a) / d >= 0.0;
  }

  lemma MulStrictMonotone(a: real, b: real, k: real)
    requires a < b && k > 0.0
    ensures a * k < b * k
  {
    assert b * k - a * k == (b - a) * k;
  }

  lemma MulMonotone(a: real, b: real, k: real)
    requires a <= b && k >= 0.0
    ensures a * k <= b * k
  {
    assert b * k - a * k == (b - a) * k;
  }
}
