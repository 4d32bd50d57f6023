/**
 * A single rebalancing position that buys into a falling market (AMMBuyBear) and the
 * liquidation counterpart that sells into a rising one (exit_insane_bull).
 *
 * Both walk a price staircase in multiplicative steps and, at every rung, trade just enough
 * to bring the cash share of the total value (cash + coins * rung price) back to a target.
 * The staircases are specified by the recursive functions BuyStairs and SellStairs. Their
 * termination rests on DownSteps and UpSteps, integer bounds on the rungs still ahead;
 * BuyRungs and SellRungs count the rungs exactly and serve as the measure of every proof.
 */
module Amm {
  import opened Common

  // ---------------------------------------------------------------------------------------
  // Descending staircase: price, price - price*step, ... while the rung is >= floor.
  // ---------------------------------------------------------------------------------------

  /** An upper bound on the number of rungs a descending staircase still visits. */
  function DownSteps(price: real, step: real, floor: real): nat
    requires step > 0.0 && floor > 0.0
  {
    if price < floor then 0 else ((price - floor) / (step * floor)).Floor + 1
  }

  lemma DownStepsDecrease(price: real, step: real, floor: real)
    requires step > 0.0 && floor > 0.0 && price >= floor
    ensures DownSteps(price - price * step, step, floor) < DownSteps(price, step, floor)
  {
    var x := (price - floor) / (step * floor);
    assert x >= 0.0;
    var next := price - price * step;
    if next >= floor {
      var d := step * floor;
      assert (price * step) / d == price / floor;
      assert (next - floor) / d == (price - floor) / d - (price * step) / d;
      assert price / floor >= 1.0;
    }
  }

  /** The number of rungs a descending staircase from `price` visits before dropping below `floor`. */
  function BuyRungs(step: real, floor: real, price: real): nat
    requires step > 0.0 && floor > 0.0
    decreases DownSteps(price, step, floor)
  {
    if price < floor then 0
    else
      DownStepsDecrease(price, step, floor);
      1 + BuyRungs(step, floor, price - price * step)
  }

  /** Cash held above the target share `ratio` of the total value at `price`. */
  function Surplus(ratio: real, price: real, cash: real, coins: real): real
  {
    cash - (cash + coins * price) * ratio
  }

  /** Cash is at most the target share `ratio` of the total value at `price`. */
  predicate AtOrBelowTarget(ratio: real, price: real, cash: real, coins: real)
  {
    cash <= ratio * (cash + coins * price)
  }

  /** One rung of the buying staircase: spend any surplus cash on coins at `price`. */
  function BuyRung(ratio: real, price: real, cash: real, coins: real): (real, real)
    requires price > 0.0
  {
    var buy := Surplus(ratio, price, cash, coins);
    if buy > 0.0 then (cash - buy, coins + buy / price) else (cash, coins)
  }

  /**
   * A rung conserves value at its price and leaves the cash at or below the target share; it
   * trades exactly when there is a surplus, and then lands the cash on the target and only buys.
   */
  lemma BuyRungRebalances(ratio: real, price: real, cash: real, coins: real)
    requires price > 0.0
    ensures var h := BuyRung(ratio, price, cash, coins);
      && h.0 + h.1 * price == cash + coins * price
      && AtOrBelowTarget(ratio, price, h.0, h.1)
      && (Surplus(ratio, price, cash, coins) > 0.0 ==>
            h.0 == ratio * (cash + coins * price) && h.0 < cash && h.1 > coins)
      && (Surplus(ratio, price, cash, coins) <= 0.0 ==> h == (cash, coins))
      && (0.0 <= ratio && cash >= 0.0 && coins >= 0.0 ==> h.0 >= 0.0 && h.1 >= 0.0)
  {
    var buy := Surplus(ratio, price, cash, coins);
    var total := cash + coins * price;
    if buy > 0.0 {
      MulDivCancel(buy, price);
      assert (coins + buy / price) * price == coins * price + buy;
      assert buy / price > 0.0;
      if 0.0 <= ratio && cash >= 0.0 && coins >= 0.0 {
        assert coins * price >= 0.0;
        assert ratio * total >= 0.0;
      }
    }
  }

  /** What one buying rung logs: the coins bought there, if any. */
  function BuyRungLog(ratio: real, price: real, cash: real, coins: real): BuyLogs
    requires price > 0.0
  {
    var buy := Surplus(ratio, price, cash, coins);
    if buy > 0.0 then [(price, buy / price)] else []
  }

  /** A rung's log entry accounts for exactly the cash it spends and the coins it buys. */
  lemma BuyRungLogged(ratio: real, price: real, cash: real, coins: real)
    requires price > 0.0
    ensures var h := BuyRung(ratio, price, cash, coins);
      var log := BuyRungLog(ratio, price, cash, coins);
      cash - h.0 == LoggedCash(log) && h.1 - coins == LoggedCoins(log)
  {
    var buy := Surplus(ratio, price, cash, coins);
    if buy > 0.0 {
      var log := BuyRungLog(ratio, price, cash, coins);
      assert log[1..] == [];
      MulDivCancel(buy, price);
    }
  }

  /** Where a staircase ends: the first rung past the bound, the holdings, the log. */
  datatype Stairs = Stairs(price: real, cash: real, coins: real, log: BuyLogs)

  /** The buying staircase from `price` down to the first rung below `floor`. */
  function BuyStairs(ratio: real, step: real, floor: real, price: real, cash: real, coins: real): Stairs
    requires step > 0.0 && floor > 0.0
    decreases BuyRungs(step, floor, price), 1
  {
    if price < floor then Stairs(price, cash, coins, [])
    else BuyRungThenStairs(ratio, step, floor, price, cash, coins)
  }

  /** One rung of the buying staircase at `price`, then the staircase from the next rung down. */
  function BuyRungThenStairs(ratio: real, step: real, floor: real, price: real, cash: real, coins: real): Stairs
    requires step > 0.0 && floor > 0.0 && price >= floor
    decreases BuyRungs(step, floor, price), 0
  {
    var h := BuyRung(ratio, price, cash, coins);
    var rest := BuyStairs(ratio, step, floor, price - price * step, h.0, h.1);
    rest.(log := BuyRungLog(ratio, price, cash, coins) + rest.log)
  }

  /** One rung of the staircase, then the rest of it. */
  lemma BuyStairsStep(ratio: real, step: real, floor: real, price: real, cash: real, coins: real)
    requires step > 0.0 && floor > 0.0 && price >= floor
    ensures var h := BuyRung(ratio, price, cash, coins);
      var r := BuyStairs(ratio, step, floor, price, cash, coins);
      var rest := BuyStairs(ratio, step, floor, price - price * step, h.0, h.1);
      && BuyRungs(step, floor, price - price * step) < BuyRungs(step, floor, price)
      && r.price == rest.price && r.cash == rest.cash && r.coins == rest.coins
      && r.log == BuyRungLog(ratio, price, cash, coins) + rest.log
  {
  }

  lemma {:induction false} BuyStairsEnds(ratio: real, step: real, floor: real, price: real, cash: real, coins: real)
    requires step > 0.0 && floor > 0.0
    ensures var r := BuyStairs(ratio, step, floor, price, cash, coins);
      && r.price < floor
      && (price < floor ==> r == Stairs(price, cash, coins, []))
      && (price >= floor ==> r.price < price)
    decreases BuyRungs(step, floor, price)
  {
    if price >= floor {
      BuyStairsStep(ratio, step, floor, price, cash, coins);
      var h := BuyRung(ratio, price, cash, coins);
      assert price * step > 0.0;
      BuyStairsEnds(ratio, step, floor, price - price * step, h.0, h.1);
    }
  }

  /** A staircase that had to descend undershoots the floor by at most one step. */
  lemma {:induction false} BuyStairsUndershoot(ratio: real, step: real, floor: real, price: real, cash: real, coins: real)
    requires 0.0 < step <= 1.0 && floor > 0.0 && price >= floor
    ensures floor * (1.0 - step) <= BuyStairs(ratio, step, floor, price, cash, coins).price
    decreases BuyRungs(step, floor, price)
  {
    BuyStairsStep(ratio, step, floor, price, cash, coins);
    var h := BuyRung(ratio, price, cash, coins);
    var next := price - price * step;
    if next >= floor {
      BuyStairsUndershoot(ratio, step, floor, next, h.0, h.1);
    } else {
      assert BuyStairs(ratio, step, floor, next, h.0, h.1).price == next;
      MulMonotone(floor, price, 1.0 - step);
      assert price * (1.0 - step) >= floor * (1.0 - step);
      assert next == price * (1.0 - step);
      assert floor * (1.0 - step) <= next;
    }
  }

  /** The log records exactly the cash spent and the coins bought along the staircase. */
  lemma {:induction false} BuyStairsLogged(ratio: real, step: real, floor: real, price: real, cash: real, coins: real)
    requires step > 0.0 && floor > 0.0
    ensures var r := BuyStairs(ratio, step, floor, price, cash, coins);
      cash - r.cash == LoggedCash(r.log) && r.coins - coins == LoggedCoins(r.log)
    decreases BuyRungs(step, floor, price)
  {
    if price >= floor {
      BuyStairsStep(ratio, step, floor, price, cash, coins);
      var h := BuyRung(ratio, price, cash, coins);
      var rest := BuyStairs(ratio, step, floor, price - price * step, h.0, h.1);
      BuyStairsLogged(ratio, step, floor, price - price * step, h.0, h.1);
      BuyRungLogged(ratio, price, cash, coins);
      LoggedCashAppend(BuyRungLog(ratio, price, cash, coins), rest.log);
      LoggedCoinsAppend(BuyRungLog(ratio, price, cash, coins), rest.log);
    }
  }

  /** The staircase only buys, and logs positive amounts at rungs between `floor` and `price`. */
  lemma {:induction false} BuyStairsEntries(ratio: real, step: real, floor: real, price: real, cash: real, coins: real)
    requires step > 0.0 && floor > 0.0
    ensures var r := BuyStairs(ratio, step, floor, price, cash, coins);
      && r.cash <= cash && r.coins >= coins
      && (forall e :: e in r.log ==> e.1 > 0.0 && floor <= e.0 <= price)
    decreases BuyRungs(step, floor, price)
  {
    if price >= floor {
      BuyStairsStep(ratio, step, floor, price, cash, coins);
      BuyRungRebalances(ratio, price, cash, coins);
      var buy := Surplus(ratio, price, cash, coins);
      var h := BuyRung(ratio, price, cash, coins);
      var next := price - price * step;
      assert price * step > 0.0;
      BuyStairsEntries(ratio, step, floor, next, h.0, h.1);
      if buy > 0.0 {
        assert buy / price > 0.0;
      }
      var r := BuyStairs(ratio, step, floor, price, cash, coins);
      var rest := BuyStairs(ratio, step, floor, next, h.0, h.1);
      forall e | e in r.log
        ensures e.1 > 0.0 && floor <= e.0 <= price
      {
        if e !in rest.log {
          assert e in BuyRungLog(ratio, price, cash, coins);
        }
      }
    }
  }

  lemma {:induction false} BuyStairsNonNegative(ratio: real, step: real, floor: real, price: real, cash: real, coins: real)
    requires step > 0.0 && floor > 0.0
    requires 0.0 <= ratio && cash >= 0.0 && coins >= 0.0
    ensures var r := BuyStairs(ratio, step, floor, price, cash, coins); r.cash >= 0.0 && r.coins >= 0.0
    decreases BuyRungs(step, floor, price)
  {
    if price >= floor {
      BuyStairsStep(ratio, step, floor, price, cash, coins);
      BuyRungRebalances(ratio, price, cash, coins);
      var h := BuyRung(ratio, price, cash, coins);
      BuyStairsNonNegative(ratio, step, floor, price - price * step, h.0, h.1);
    }
  }

  /** The last rung a descending staircase visits from `price` (itself at or above `floor`). */
  function BuyLastRung(step: real, floor: real, price: real): (q: real)
    requires step > 0.0 && floor > 0.0 && price >= floor
    ensures floor <= q <= price
    decreases BuyRungs(step, floor, price)
  {
    var next := price - price * step;
    assert price * step > 0.0;
    if next < floor then price else BuyLastRung(step, floor, next)
  }

  /** The rung one step below `price`. */
  function StepDown(step: real, price: real): real
  {
    price - price * step
  }

  /** The staircase stops one step below its last rung. */
  lemma {:induction false} BuyStairsStopsAfterLastRung(ratio: real, step: real, floor: real, price: real, cash: real, coins: real)
    requires step > 0.0 && floor > 0.0 && price >= floor
    ensures BuyStairs(ratio, step, floor, price, cash, coins).price == StepDown(step, BuyLastRung(step, floor, price))
    decreases BuyRungs(step, floor, price)
  {
    BuyStairsStep(ratio, step, floor, price, cash, coins);
    var h := BuyRung(ratio, price, cash, coins);
    var next := price - price * step;
    assert price * step > 0.0;
    var rest := BuyStairs(ratio, step, floor, next, h.0, h.1);
    assert BuyStairs(ratio, step, floor, price, cash, coins).price == rest.price;
    if next >= floor {
      BuyStairsStopsAfterLastRung(ratio, step, floor, next, h.0, h.1);
      assert BuyLastRung(step, floor, price) == BuyLastRung(step, floor, next);
    } else {
      BuyStairsEnds(ratio, step, floor, next, h.0, h.1);
      assert rest.price == next;
      assert BuyLastRung(step, floor, price) == price;
    }
  }

  /** At its last rung the staircase leaves the cash at or below the target share of the value. */
  lemma {:induction false} BuyStairsOnTarget(ratio: real, step: real, floor: real, price: real, cash: real, coins: real)
    requires step > 0.0 && floor > 0.0 && price >= floor
    ensures var r := BuyStairs(ratio, step, floor, price, cash, coins);
      AtOrBelowTarget(ratio, BuyLastRung(step, floor, price), r.cash, r.coins)
    decreases BuyRungs(step, floor, price)
  {
    BuyStairsStep(ratio, step, floor, price, cash, coins);
    var h := BuyRung(ratio, price, cash, coins);
    var next := price - price * step;
    assert price * step > 0.0;
    if next >= floor {
      BuyStairsOnTarget(ratio, step, floor, next, h.0, h.1);
    } else {
      BuyStairsEnds(ratio, step, floor, next, h.0, h.1);
      BuyRungRebalances(ratio, price, cash, coins);
    }
  }

  // ---------------------------------------------------------------------------------------
  // Ascending staircase: price, price + price*step, ... while the rung is < ceiling.
  // ---------------------------------------------------------------------------------------

  /** An upper bound on the number of rungs an ascending staircase still visits. */
  function UpSteps(price: real, step: real, ceiling: real): nat
    requires step > 0.0 && price > 0.0
  {
    if price >= ceiling then 0 else ((ceiling - price) / (step * price)).Floor + 1
  }

  lemma UpStepsDecrease(price: real, step: real, ceiling: real)
    requires step > 0.0 && price > 0.0 && price < ceiling
    ensures price + price * step > 0.0
    ensures UpSteps(price + price * step, step, ceiling) < UpSteps(price, step, ceiling)
  {
    var d := step * price;
    assert d > 0.0;
    var x := (ceiling - price) / d;
    assert x >= 0.0;
    var next := price + price * step;
    assert next == price * (1.0 + step);
    if next < ceiling {
      var x' := (ceiling - next) / (step * next);
      assert step * next == d * (1.0 + step);
      assert ceiling - next == (ceiling - price) - d;
      assert x' == (x - 1.0) / (1.0 + step) by {
        DivSub(ceiling - price, d, d);
      }
      assert x' <= x - 1.0;
      assert UpSteps(next, step, ceiling) == x'.Floor + 1;
    }
  }

  /** The number of rungs an ascending staircase from `price` visits before reaching `ceiling`. */
  function SellRungs(step: real, ceiling: real, price: real): nat
    requires step > 0.0 && price > 0.0
    decreases UpSteps(price, step, ceiling)
  {
    if price >= ceiling then 0
    else
      UpStepsDecrease(price, step, ceiling);
      1 + SellRungs(step, ceiling, price + price * step)
  }

  /** Cash missing below the target share `ratio` of the total value at `price`. */
  function Deficit(ratio: real, price: real, cash: real, coins: real): real
  {
    (cash + coins * price) * ratio - cash
  }

  /** Cash is at least the target share `ratio` of the total value at `price`. */
  predicate AtOrAboveTarget(ratio: real, price: real, cash: real, coins: real)
  {
    cash >= ratio * (cash + coins * price)
  }

  /** One rung of the selling staircase: sell enough coins at `price` to restore the target. */
  function SellRung(ratio: real, price: real, cash: real, coins: real): (real, real)
    requires price > 0.0
  {
    var takeOut := Deficit(ratio, price, cash, coins);
    if takeOut > 0.0 then (cash + takeOut, coins - takeOut / price) else (cash, coins)
  }

  /**
   * A rung conserves value at its price and leaves the cash at or above the target share; it
   * trades exactly when cash is missing, and then lands the cash on the target and only sells.
   */
  lemma SellRungRebalances(ratio: real, price: real, cash: real, coins: real)
    requires price > 0.0
    ensures var h := SellRung(ratio, price, cash, coins);
      && h.0 + h.1 * price == cash + coins * price
      && AtOrAboveTarget(ratio, price, h.0, h.1)
      && (Deficit(ratio, price, cash, coins) > 0.0 ==>
            h.0 == ratio * (cash + coins * price) && h.0 > cash && h.1 < coins)
      && (Deficit(ratio, price, cash, coins) <= 0.0 ==> h == (cash, coins))
  {
    var takeOut := Deficit(ratio, price, cash, coins);
    if takeOut > 0.0 {
      MulDivCancel(takeOut, price);
      assert (coins - takeOut / price) * price == coins * price - takeOut;
      assert takeOut / price > 0.0;
    }
  }

  /** With a target share in [0, 1] a rung never sells more coins than are held. */
  lemma SellRungNonNegative(ratio: real, price: real, cash: real, coins: real)
    requires price > 0.0 && 0.0 <= ratio <= 1.0 && cash >= 0.0 && coins >= 0.0
    ensures var h := SellRung(ratio, price, cash, coins); h.0 >= 0.0 && h.1 >= 0.0
  {
    var takeOut := Deficit(ratio, price, cash, coins);
    if takeOut > 0.0 {
      var total := cash + coins * price;
      assert coins * price >= 0.0;
      assert total * ratio <= total;
      assert takeOut <= coins * price;
      MulCancelDiv(coins, price);
      DivMonotone(takeOut, coins * price, price);
      assert takeOut / price <= coins;
    }
  }

  /** What one selling rung logs: the coins sold there, as a negative amount, if any. */
  function SellRungLog(ratio: real, price: real, cash: real, coins: real): BuyLogs
    requires price > 0.0
  {
    var takeOut := Deficit(ratio, price, cash, coins);
    if takeOut > 0.0 then [(price, -(takeOut / price))] else []
  }

  /** A rung's log entry accounts for exactly the cash it raises and the coins it sells. */
  lemma SellRungLogged(ratio: real, price: real, cash: real, coins: real)
    requires price > 0.0
    ensures var h := SellRung(ratio, price, cash, coins);
      var log := SellRungLog(ratio, price, cash, coins);
      cash - h.0 == LoggedCash(log) && h.1 - coins == LoggedCoins(log)
  {
    var takeOut := Deficit(ratio, price, cash, coins);
    if takeOut > 0.0 {
      var log := SellRungLog(ratio, price, cash, coins);
      assert log[1..] == [];
      MulDivCancel(takeOut, price);
      assert price * -(takeOut / price) == -takeOut;
    }
  }

  /** The selling staircase from `price` up to the first rung at or above `ceiling`. */
  function SellStairs(ratio: real, step: real, ceiling: real, price: real, cash: real, coins: real): Stairs
    requires step > 0.0 && price > 0.0
    decreases SellRungs(step, ceiling, price)
  {
    if price >= ceiling then Stairs(price, cash, coins, [])
    else
      assert price * step > 0.0;
      var h := SellRung(ratio, price, cash, coins);
      var rest := SellStairs(ratio, step, ceiling, price + price * step, h.0, h.1);
      rest.(log := SellRungLog(ratio, price, cash, coins) + rest.log)
  }

  /** One rung of the staircase, then the rest of it. */
  lemma SellStairsStep(ratio: real, step: real, ceiling: real, price: real, cash: real, coins: real)
    requires step > 0.0 && price > 0.0 && price < ceiling
    ensures price + price * step > 0.0
    ensures var h := SellRung(ratio, price, cash, coins);
      var r := SellStairs(ratio, step, ceiling, price, cash, coins);
      var rest := SellStairs(ratio, step, ceiling, price + price * step, h.0, h.1);
      && SellRungs(step, ceiling, price + price * step) < SellRungs(step, ceiling, price)
      && r.price == rest.price && r.cash == rest.cash && r.coins == rest.coins
      && r.log == SellRungLog(ratio, price, cash, coins) + rest.log
  {
    assert price * step > 0.0;
  }

  lemma {:induction false} SellStairsEnds(ratio: real, step: real, ceiling: real, price: real, cash: real, coins: real)
    requires step > 0.0 && price > 0.0
    ensures var r := SellStairs(ratio, step, ceiling, price, cash, coins);
      && r.price >= ceiling
      && r.price >= price
      && (price >= ceiling ==> r == Stairs(price, cash, coins, []))
    decreases SellRungs(step, ceiling, price)
  {
    if price < ceiling {
      SellStairsStep(ratio, step, ceiling, price, cash, coins);
      var h := SellRung(ratio, price, cash, coins);
      SellStairsEnds(ratio, step, ceiling, price + price * step, h.0, h.1);
    }
  }

  /** A staircase that had to climb overshoots the ceiling by less than one step. */
  lemma {:induction false} SellStairsOvershoot(ratio: real, step: real, ceiling: real, price: real, cash: real, coins: real)
    requires step > 0.0 && price > 0.0 && price < ceiling
    ensures SellStairs(ratio, step, ceiling, price, cash, coins).price < ceiling * (1.0 + step)
    decreases SellRungs(step, ceiling, price)
  {
    SellStairsStep(ratio, step, ceiling, price, cash, coins);
    var h := SellRung(ratio, price, cash, coins);
    var next := price + price * step;
    if next < ceiling {
      SellStairsOvershoot(ratio, step, ceiling, next, h.0, h.1);
    } else {
      assert SellStairs(ratio, step, ceiling, next, h.0, h.1).price == next;
      MulStrictMonotone(price, ceiling, 1.0 + step);
      assert next == price * (1.0 + step);
    }
  }

  /** The log records the cash raised (as negative spending) and the coins sold (as negative buys). */
  lemma {:induction false} SellStairsLogged(ratio: real, step: real, ceiling: real, price: real, cash: real, coins: real)
    requires step > 0.0 && price > 0.0
    ensures var r := SellStairs(ratio, step, ceiling, price, cash, coins);
      cash - r.cash == LoggedCash(r.log) && r.coins - coins == LoggedCoins(r.log)
    decreases SellRungs(step, ceiling, price)
  {
    if price < ceiling {
      SellStairsStep(ratio, step, ceiling, price, cash, coins);
      var h := SellRung(ratio, price, cash, coins);
      var rest := SellStairs(ratio, step, ceiling, price + price * step, h.0, h.1);
      SellStairsLogged(ratio, step, ceiling, price + price * step, h.0, h.1);
      SellRungLogged(ratio, price, cash, coins);
      LoggedCashAppend(SellRungLog(ratio, price, cash, coins), rest.log);
      LoggedCoinsAppend(SellRungLog(ratio, price, cash, coins), rest.log);
    }
  }

  /** The staircase only sells, and logs negative amounts at rungs between `price` and `ceiling`. */
  lemma {:induction false} SellStairsEntries(ratio: real, step: real, ceiling: real, price: real, cash: real, coins: real)
    requires step > 0.0 && price > 0.0
    ensures var r := SellStairs(ratio, step, ceiling, price, cash, coins);
      && r.cash >= cash && r.coins <= coins
      && (forall e :: e in r.log ==> e.1 < 0.0 && price <= e.0 < ceiling)
    decreases SellRungs(step, ceiling, price)
  {
    if price < ceiling {
      SellStairsStep(ratio, step, ceiling, price, cash, coins);
      SellRungRebalances(ratio, price, cash, coins);
      var takeOut := Deficit(ratio, price, cash, coins);
      var h := SellRung(ratio, price, cash, coins);
      var next := price + price * step;
      SellStairsEntries(ratio, step, ceiling, next, h.0, h.1);
      if takeOut > 0.0 {
        assert takeOut / price > 0.0;
      }
      var r := SellStairs(ratio, step, ceiling, price, cash, coins);
      var rest := SellStairs(ratio, step, ceiling, next, h.0, h.1);
      forall e | e in r.log
        ensures e.1 < 0.0 && price <= e.0 < ceiling
      {
        if e !in rest.log {
          assert e in SellRungLog(ratio, price, cash, coins);
        }
      }
    }
  }

  lemma {:induction false} SellStairsNonNegative(ratio: real, step: real, ceiling: real, price: real, cash: real, coins: real)
    requires step > 0.0 && price > 0.0
    requires 0.0 <= ratio <= 1.0 && cash >= 0.0 && coins >= 0.0
    ensures var r := SellStairs(ratio, step, ceiling, price, cash, coins); r.cash >= 0.0 && r.coins >= 0.0
    decreases SellRungs(step, ceiling, price)
  {
    if price < ceiling {
      SellStairsStep(ratio, step, ceiling, price, cash, coins);
      SellRungNonNegative(ratio, price, cash, coins);
      var h := SellRung(ratio, price, cash, coins);
      SellStairsNonNegative(ratio, step, ceiling, price + price * step, h.0, h.1);
    }
  }

  /** The last rung an ascending staircase visits from `price` (itself below `ceiling`). */
  function SellLastRung(step: real, ceiling: real, price: real): (q: real)
    requires step > 0.0 && price > 0.0 && price < ceiling
    ensures price <= q < ceiling
    decreases SellRungs(step, ceiling, price)
  {
    assert price * step > 0.0;
    var next := price + price * step;
    if next >= ceiling then price else SellLastRung(step, ceiling, next)
  }

  /** The rung one step above `price`. */
  function StepUp(step: real, price: real): real
  {
    price + price * step
  }

  /** The staircase stops one step above its last rung. */
  lemma {:induction false} SellStairsStopsAfterLastRung(ratio: real, step: real, ceiling: real, price: real, cash: real, coins: real)
    requires step > 0.0 && price > 0.0 && price < ceiling
    ensures SellStairs(ratio, step, ceiling, price, cash, coins).price == StepUp(step, SellLastRung(step, ceiling, price))
    decreases SellRungs(step, ceiling, price)
  {
    SellStairsStep(ratio, step, ceiling, price, cash, coins);
    var h := SellRung(ratio, price, cash, coins);
    var next := price + price * step;
    var rest := SellStairs(ratio, step, ceiling, next, h.0, h.1);
    assert SellStairs(ratio, step, ceiling, price, cash, coins).price == rest.price;
    if next < ceiling {
      SellStairsStopsAfterLastRung(ratio, step, ceiling, next, h.0, h.1);
      assert SellLastRung(step, ceiling, price) == SellLastRung(step, ceiling, next);
    } else {
      SellStairsEnds(ratio, step, ceiling, next, h.0, h.1);
      assert rest.price == next;
      assert SellLastRung(step, ceiling, price) == price;
    }
  }

  /** At its last rung the staircase leaves the cash at or above the target share of the value. */
  lemma {:induction false} SellStairsOnTarget(ratio: real, step: real, ceiling: real, price: real, cash: real, coins: real)
    requires step > 0.0 && price > 0.0 && price < ceiling
    ensures var r := SellStairs(ratio, step, ceiling, price, cash, coins);
      AtOrAboveTarget(ratio, SellLastRung(step, ceiling, price), r.cash, r.coins)
    decreases SellRungs(step, ceiling, price)
  {
    SellStairsStep(ratio, step, ceiling, price, cash, coins);
    var h := SellRung(ratio, price, cash, coins);
    var next := price + price * step;
    if next < ceiling {
      SellStairsOnTarget(ratio, step, ceiling, next, h.0, h.1);
    } else {
      SellStairsEnds(ratio, step, ceiling, next, h.0, h.1);
      SellRungRebalances(ratio, price, cash, coins);
    }
  }

  // ---------------------------------------------------------------------------------------
  // exit_insane_bull
  // ---------------------------------------------------------------------------------------

  /**
   * Liquidates toward `cashRatio` while the price climbs from `startPrice` to `finishPrice`.
   * The three in-out references of the source come back as `cash`, `coins` and `price`;
   * `log` is `sellLog` with this call's sales appended.
   */
  method ExitInsaneBull(cashRatio: real, startCash: real, startCoins: real, rebalancePercentSteps: real,
                        startPrice: real, finishPrice: real, sellLog: BuyLogs)
    returns (cash: real, coins: real, price: real, log: BuyLogs)
    requires finishPrice > startPrice ==> rebalancePercentSteps > 0.0 && startPrice > 0.0
    ensures finishPrice <= startPrice ==>
      cash == startCash && coins == startCoins && price == startPrice && log == sellLog
    ensures finishPrice > startPrice ==>
      var r := SellStairs(cashRatio, rebalancePercentSteps, finishPrice, startPrice, startCash, startCoins);
      cash == r.cash && coins == r.coins && price == r.price && log == sellLog + r.log
  {
    cash, coins, price, log := startCash, startCoins, startPrice, sellLog;
    if finishPrice <= startPrice {
      return;
    }
    assert rebalancePercentSteps > 0.0 && startPrice > 0.0;
    ghost var whole := SellStairs(cashRatio, rebalancePercentSteps, finishPrice, startPrice, startCash, startCoins);
    while price < finishPrice
      invariant price >= startPrice
      invariant var rest := SellStairs(cashRatio, rebalancePercentSteps, finishPrice, price, cash, coins);
        rest.price == whole.price && rest.cash == whole.cash && rest.coins == whole.coins
        && log + rest.log == sellLog + whole.log
      decreases SellRungs(rebalancePercentSteps, finishPrice, price)
    {
      SellStairsStep(cashRatio, rebalancePercentSteps, finishPrice, price, cash, coins);
      // total * cash_ratio - cash
      var takeOut := Deficit(cashRatio, price, cash, coins);
      if takeOut > 0.0 {
        cash := cash + takeOut;
        var coinsToSell := takeOut / price;
        coins := coins - coinsToSell;
        log := log + [(price, -coinsToSell)];
      }
      price := price + price * rebalancePercentSteps;
    }
  }

  // ---------------------------------------------------------------------------------------
  // AMMBuyBear
  // ---------------------------------------------------------------------------------------

  /** A value snapshot of one AMMBuyBear position. */
  datatype Position = Position(lastPrice: real, tickToExpire: nat, cash: real, coins: real,
                               rebalanceCashRatio: real, rebalanceStepPercentage: real)

  /** What `check_expiration` returns, together with the position it leaves behind. */
  datatype Expiration = Expiration(expired: bool, cash: real, coins: real, position: Position)

  function ExpirationResult(p: Position, tick: nat): (e: Expiration)
    ensures e.expired <==> tick >= p.tickToExpire
    ensures e.position.lastPrice == p.lastPrice && e.position.tickToExpire == p.tickToExpire
    ensures e.expired ==> e.cash == p.cash && e.coins == p.coins && e.position.cash == 0.0 && e.position.coins == 0.0
    ensures !e.expired ==> e.cash == 0.0 && e.coins == 0.0 && e.position == p
    ensures e.cash + e.position.cash == p.cash && e.coins + e.position.coins == p.coins
  {
    if tick >= p.tickToExpire then Expiration(true, p.cash, p.coins, p.(cash := 0.0, coins := 0.0))
    else Expiration(false, 0.0, 0.0, p)
  }

  /** Once expired, every later check reports expiry again but hands back nothing. */
  lemma ExpireOnlyOnce(p: Position, tick: nat, later: nat)
    requires tick >= p.tickToExpire && later >= tick
    ensures var e := ExpirationResult(p, tick);
      ExpirationResult(e.position, later) == Expiration(true, 0.0, 0.0, e.position)
  {
  }

  /** What `buy` returns, together with the position it leaves behind. */
  datatype BuyOutcome = BuyOutcome(position: Position, cashInvested: real, coinsInvested: real, log: BuyLogs)

  function BuyResult(p: Position, newPrice: real): BuyOutcome
    requires p.rebalanceStepPercentage > 0.0 && newPrice > 0.0
  {
    if newPrice > p.lastPrice then BuyOutcome(p, 0.0, 0.0, [])
    else
      var r := BuyStairs(p.rebalanceCashRatio, p.rebalanceStepPercentage, newPrice, p.lastPrice, p.cash, p.coins);
      BuyOutcome(p.(lastPrice := r.price, cash := r.cash, coins := r.coins),
                 p.cash - r.cash, r.coins - p.coins, r.log)
  }

  /** A rise in price is a no-op: nothing is bought and the position is untouched. */
  lemma BuyAboveLastPriceIsNoOp(p: Position, newPrice: real)
    requires p.rebalanceStepPercentage > 0.0 && newPrice > 0.0 && newPrice > p.lastPrice
    ensures BuyResult(p, newPrice) == BuyOutcome(p, 0.0, 0.0, [])
  {
  }

  /**
   * The amounts `buy` returns are exactly what left the cash and entered the coins, they agree
   * with what it logs, and it only ever buys, at rungs between the new and the last price.
   */
  lemma BuyAccounts(p: Position, newPrice: real)
    requires p.rebalanceStepPercentage > 0.0 && newPrice > 0.0
    ensures var b := BuyResult(p, newPrice);
      && b.cashInvested == p.cash - b.position.cash == LoggedCash(b.log)
      && b.coinsInvested == b.position.coins - p.coins == LoggedCoins(b.log)
      && b.cashInvested >= 0.0 && b.coinsInvested >= 0.0
      && (forall e :: e in b.log ==> e.1 > 0.0 && newPrice <= e.0 <= p.lastPrice)
  {
    if newPrice <= p.lastPrice {
      var ratio, step := p.rebalanceCashRatio, p.rebalanceStepPercentage;
      BuyStairsLogged(ratio, step, newPrice, p.lastPrice, p.cash, p.coins);
      BuyStairsEntries(ratio, step, newPrice, p.lastPrice, p.cash, p.coins);
    }
  }

  /**
   * On a fall (or a repeat of the last price) the position's last price ends strictly below the
   * new price, at most one step below it; expiry tick and configuration never change.
   */
  lemma BuyMovesLastPrice(p: Position, newPrice: real)
    requires p.rebalanceStepPercentage > 0.0 && newPrice > 0.0
    ensures var b := BuyResult(p, newPrice);
      && b.position.tickToExpire == p.tickToExpire
      && b.position.rebalanceCashRatio == p.rebalanceCashRatio
      && b.position.rebalanceStepPercentage == p.rebalanceStepPercentage
      && (newPrice <= p.lastPrice ==> b.position.lastPrice < newPrice)
      && (newPrice <= p.lastPrice && p.rebalanceStepPercentage <= 1.0 ==>
            newPrice * (1.0 - p.rebalanceStepPercentage) <= b.position.lastPrice)
  {
    if newPrice <= p.lastPrice {
      var ratio, step := p.rebalanceCashRatio, p.rebalanceStepPercentage;
      BuyStairsEnds(ratio, step, newPrice, p.lastPrice, p.cash, p.coins);
      if step <= 1.0 {
        BuyStairsUndershoot(ratio, step, newPrice, p.lastPrice, p.cash, p.coins);
      }
    }
  }

  /** With a non-negative target share, a position never goes short of cash or coins. */
  lemma BuyKeepsHoldingsNonNegative(p: Position, newPrice: real)
    requires p.rebalanceStepPercentage > 0.0 && newPrice > 0.0
    requires 0.0 <= p.rebalanceCashRatio && p.cash >= 0.0 && p.coins >= 0.0
    ensures var b := BuyResult(p, newPrice); b.position.cash >= 0.0 && b.position.coins >= 0.0
  {
    if newPrice <= p.lastPrice {
      BuyStairsNonNegative(p.rebalanceCashRatio, p.rebalanceStepPercentage, newPrice, p.lastPrice, p.cash, p.coins);
    }
  }

  /** Trading at exactly the last price visits one rung: the last price itself. */
  lemma BuyAtLastPriceIsOneRung(p: Position)
    requires p.rebalanceStepPercentage > 0.0 && p.lastPrice > 0.0
    ensures var price, ratio := p.lastPrice, p.rebalanceCashRatio;
      var h := BuyRung(ratio, price, p.cash, p.coins);
      BuyResult(p, price) ==
        BuyOutcome(p.(lastPrice := price - price * p.rebalanceStepPercentage, cash := h.0, coins := h.1),
                   p.cash - h.0, h.1 - p.coins, BuyRungLog(ratio, price, p.cash, p.coins))
  {
    var price, step, ratio := p.lastPrice, p.rebalanceStepPercentage, p.rebalanceCashRatio;
    BuyStairsStep(ratio, step, price, price, p.cash, p.coins);
    var h := BuyRung(ratio, price, p.cash, p.coins);
    assert price * step > 0.0;
    BuyStairsEnds(ratio, step, price, price - price * step, h.0, h.1);
    var rest := BuyStairs(ratio, step, price, price - price * step, h.0, h.1);
    assert rest == Stairs(price - price * step, h.0, h.1, []);
    assert BuyRungLog(ratio, price, p.cash, p.coins) + [] == BuyRungLog(ratio, price, p.cash, p.coins);
  }

  /**
   * The first trade of a freshly created position, at its own creation price, converts exactly
   * the fraction 1 - ratio of its cash into coins and moves its last price one step down.
   */
  lemma NewPositionFirstTrade(cash: real, price: real, tickToExpire: nat, ratio: real, step: real)
    requires price > 0.0 && step > 0.0 && cash > 0.0 && ratio < 1.0
    ensures var b := BuyResult(Position(price, tickToExpire, cash, 0.0, ratio, step), price);
      && b.cashInvested == cash * (1.0 - ratio)
      && b.coinsInvested == cash * (1.0 - ratio) / price
      && b.position == Position(price - price * step, tickToExpire, cash * ratio, cash * (1.0 - ratio) / price, ratio, step)
      && b.log == [(price, cash * (1.0 - ratio) / price)]
  {
    var p := Position(price, tickToExpire, cash, 0.0, ratio, step);
    BuyAtLastPriceIsOneRung(p);
    var buy := Surplus(ratio, price, cash, 0.0);
    assert buy == cash * (1.0 - ratio);
    assert cash * (1.0 - ratio) > 0.0;
    assert BuyRung(ratio, price, cash, 0.0) == (cash * ratio, cash * (1.0 - ratio) / price);
  }

  /**
   * The loop of `buy`, run on the state `p` of one position: while the rung price has not
   * fallen below `newPrice`, buys back to the target cash share at that rung, then steps the
   * rung down. Returns the position afterwards, the cash spent and the coins bought, and
   * `buyLogs` with the purchases appended.
   */
  method BuyPosition(p: Position, newPrice: real, buyLogs: BuyLogs)
    returns (q: Position, cashInvested: real, coinsInvested: real, logs: BuyLogs)
    requires p.rebalanceStepPercentage > 0.0 && newPrice > 0.0
    ensures var b := BuyResult(p, newPrice);
      q == b.position && cashInvested == b.cashInvested && coinsInvested == b.coinsInvested
      && logs == buyLogs + b.log
  {
    var ratio, step := p.rebalanceCashRatio, p.rebalanceStepPercentage;
    var price, cash, coins := p.lastPrice, p.cash, p.coins;
    logs := buyLogs;
    if newPrice > price {
      return p, 0.0, 0.0, logs;
    }
    cashInvested, coinsInvested := 0.0, 0.0;
    ghost var whole := BuyStairs(ratio, step, newPrice, price, cash, coins);
    while price >= newPrice
      invariant var rest := BuyStairs(ratio, step, newPrice, price, cash, coins);
        rest.price == whole.price && rest.cash == whole.cash && rest.coins == whole.coins
        && logs + rest.log == buyLogs + whole.log
      invariant cashInvested == p.cash - cash && coinsInvested == coins - p.coins
      decreases BuyRungs(step, newPrice, price)
    {
      BuyStairsStep(ratio, step, newPrice, price, cash, coins);
      ghost var h, rungLog, before := BuyRung(ratio, price, cash, coins), BuyRungLog(ratio, price, cash, coins), logs;
      var buy := Surplus(ratio, price, cash, coins);
      if buy > 0.0 {
        var coinsToBuy := buy / price;
        cash := cash - buy;
        coins := coins + coinsToBuy;
        cashInvested := cashInvested + buy;
        coinsInvested := coinsInvested + coinsToBuy;
        logs := logs + [(price, coinsToBuy)];
      }
      assert cash == h.0 && coins == h.1 && logs == before + rungLog;
      price := price - price * step;
    }
    q := p.(lastPrice := price, cash := cash, coins := coins);
  }

  /** One position of the ladder; its cash, coins and last trade price change in place. */
  class AMMBuyBear {
    var lastPrice: real
    const tickToExpire: nat
    var cash: real
    var coins: real
    const rebalanceCashRatio: real
    const rebalanceStepPercentage: real

    function Snap(): Position
      reads this
    {
      Position(lastPrice, tickToExpire, cash, coins, rebalanceCashRatio, rebalanceStepPercentage)
    }

    constructor (cash: real, price: real, tickToExpire: nat, rebalanceCashRatio: real, rebalanceStepPercentage: real)
      ensures Snap() == Position(price, tickToExpire, cash, 0.0, rebalanceCashRatio, rebalanceStepPercentage)
    {
      this.lastPrice := price;
      this.cash := cash;
      this.tickToExpire := tickToExpire;
      this.coins := 0.0;
      this.rebalanceCashRatio := rebalanceCashRatio;
      this.rebalanceStepPercentage := rebalanceStepPercentage;
    }

    /** Hands back the holdings and zeroes them once `tick` has reached the expiry tick. */
    method CheckExpiration(tick: nat) returns (expired: bool, cashOut: real, coinsOut: real)
      modifies this
      ensures ExpirationResult(old(Snap()), tick) == Expiration(expired, cashOut, coinsOut, Snap())
    {
      if tick >= tickToExpire {
        expired, cashOut, coinsOut := true, cash, coins;
        cash := 0.0;
        coins := 0.0;
      } else {
        expired, cashOut, coinsOut := false, 0.0, 0.0;
      }
    }

    /**
     * Only buys when the price goes down. Returns the cash spent and the coins bought, and
     * `buyLogs` with this call's purchases appended.
     */
    method Buy(newPrice: real, buyLogs: BuyLogs) returns (cashInvested: real, coinsInvested: real, logs: BuyLogs)
      requires rebalanceStepPercentage > 0.0 && newPrice > 0.0
      modifies this
      ensures var b := BuyResult(old(Snap()), newPrice);
        Snap() == b.position && cashInvested == b.cashInvested && coinsInvested == b.coinsInvested
        && logs == buyLogs + b.log
    {
      var q;
      q, cashInvested, coinsInvested, logs := BuyPosition(Snap(), newPrice, buyLogs);
      lastPrice, cash, coins := q.lastPrice, q.cash, q.coins;
    }
  }
}
