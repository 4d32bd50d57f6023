/**
 * The popping ladder with fixed daily funding (the `AMMCostAverage` of the test module): every
 * tick retires the expired positions at the front of the queue, funds one new position with
 * the same fixed amount, and lets the queue trade from the newest position down.
 */
module Tests {
  import opened Common
  import opened Amm
  import opened Ladder

  // ---------------------------------------------------------------------------------------
  // Specification on the value state
  // ---------------------------------------------------------------------------------------

  /** One `feed_price`: expiry pass, fixed funding, push, trade pass, next tick. */
  function FixedFeed(cfg: Config, s: LadderState, price: real): LadderState
    requires PoppingWf(cfg, s) && price > 0.0
  {
    var s1 := PopExpiredState(s);
    var cashDay := FixedFunding(cfg, s1.amountRound);
    PopFundStepsPositive(cfg, s, cashDay);
    PushAndTrade(cfg, Fund(s1, cashDay), price, cashDay)
  }

  /**
   * `past_amm_cash_utilization`: the sentinel while tick <= horizon; otherwise it sums the cash
   * put into the first tick - horizon positions and asserts that exactly that many finished.
   */
  function FixedUtilization(cfg: Config, s: LadderState): Utilization
  {
    if s.tick <= cfg.horizon then NotYet
    else
      var n := s.tick - cfg.horizon;
      if n > |s.ammPutCash| || n != s.finishedAmms then Failed
      else Measure(cfg, s, Sum(s.ammPutCash[..n]), n)
  }

  /** A feed keeps the invariant, funds exactly the fixed amount and records it once. */
  lemma FixedFeedFunds(cfg: Config, s: LadderState, price: real)
    requires PoppingWf(cfg, s) && price > 0.0
    ensures var s' := FixedFeed(cfg, s, price);
      var k := LeadingExpired(s.positions, s.tick);
      var cashDay := FixedFunding(cfg, s.amountRound);
      && PoppingWf(cfg, s')
      && s'.tick == s.tick + 1 && s'.lastPrice == price
      && s'.ammPutCash == s.ammPutCash + [cashDay]
      && s'.cashReserve == s.cashReserve + CashOf(s.positions[..k]) + (BasicCashPerDay(s.amountRound) - cashDay)
      && s'.returnedCash == s.returnedCash + CashOf(s.positions[..k])
      && s'.finishedAmms == s.finishedAmms + k
  {
    var cashDay := FixedFunding(cfg, s.amountRound);
    PoppingStepWf(cfg, s, price, cashDay);
  }

  /**
   * The new position trades on the tick it is created: with positive funding and a cash ratio
   * below 1 it spends the share 1 - cashRatio of its cash at `price`, and its last price moves
   * one step down.
   */
  lemma FixedFeedTradesNewest(cfg: Config, s: LadderState, price: real)
    requires PoppingWf(cfg, s) && price > 0.0
    requires FixedFunding(cfg, s.amountRound) > 0.0 && cfg.cashRatio < 1.0
    ensures var s' := FixedFeed(cfg, s, price);
      var cashDay := FixedFunding(cfg, s.amountRound);
      && |s'.positions| > 0
      && s'.positions[|s'.positions| - 1] ==
         Position(StepDown(cfg.step, price), s.tick + cfg.horizon, cashDay * cfg.cashRatio,
                  cashDay * (1.0 - cfg.cashRatio) / price, cfg.cashRatio, cfg.step)
  {
    var p1 := PopExpiredState(s);
    var cashDay := FixedFunding(cfg, p1.amountRound);
    var s1 := Fund(p1, cashDay);
    PopFundStepsPositive(cfg, s, cashDay);
    PushAndTradeNewestBuys(cfg, s1, price, cashDay);
  }

  /**
   * With a horizon of at least one tick, the assertion of `past_amm_cash_utilization` holds
   * between feeds: the sentinel up to the horizon, a measurement of the finished positions after.
   */
  lemma FixedUtilizationBetweenFeeds(cfg: Config, s: LadderState)
    requires PoppingWf(cfg, s) && cfg.horizon >= 1
    ensures s.tick <= cfg.horizon ==> FixedUtilization(cfg, s) == NotYet
    ensures s.tick > cfg.horizon ==>
      && s.finishedAmms == s.tick - cfg.horizon
      && FixedUtilization(cfg, s) == Measure(cfg, s, Sum(s.ammPutCash[..s.finishedAmms]), s.finishedAmms)
  {
  }

  /**
   * With a horizon of 0 a position is retired one tick after it is created, so one fewer than
   * tick - horizon have finished and the assertion fails on every tick after the first.
   */
  lemma FixedUtilizationFailsWithoutHorizon(cfg: Config, s: LadderState)
    requires PoppingWf(cfg, s) && cfg.horizon == 0 && s.tick >= 1
    ensures s.finishedAmms == s.tick - 1
    ensures FixedUtilization(cfg, s) == Failed
  {
  }

  // ---------------------------------------------------------------------------------------
  // The allocator
  // ---------------------------------------------------------------------------------------

  class AMMCostAverage {
    var ammPutCash: seq<real>
    var totalAmmReturnedCash: real
    var finishedAmms: nat
    var lastAmmUninvested: real
    var cashInvested: real
    var coinsInvested: real
    var cashReserve: real
    const estDcaCashUseRatio: real
    var amountRound: real
    const ammTicksToExpire: nat
    var tick: nat
    const rebalanceCashRatio: real
    const rebalanceStepPercentage: real
    var amms: seq<Position>
    var buyLogs: BuyLogs
    var lastPrice: real

    function Cfg(): Config
    {
      Config(estDcaCashUseRatio, rebalanceCashRatio, rebalanceStepPercentage, ammTicksToExpire)
    }

    function State(): LadderState
      reads this
    {
      LadderState(ammPutCash, totalAmmReturnedCash, finishedAmms, lastAmmUninvested, cashInvested,
                  coinsInvested, cashReserve, amountRound, tick, amms, buyLogs, lastPrice)
    }

    predicate Valid()
      reads this
    {
      PoppingWf(Cfg(), State())
    }

    constructor (estDcaCashUseRatio: real, rebalanceCashRatio: real, rebalanceStepPercentage: real,
                 ammTicksToExpire: nat)
      ensures Cfg() == Config(estDcaCashUseRatio, rebalanceCashRatio, rebalanceStepPercentage, ammTicksToExpire)
      ensures State() == Initial
      ensures Valid() <==> ConfigOk(Cfg())
    {
      this.estDcaCashUseRatio := estDcaCashUseRatio;
      this.rebalanceCashRatio := rebalanceCashRatio;
      this.rebalanceStepPercentage := rebalanceStepPercentage;
      this.ammTicksToExpire := ammTicksToExpire;
      ammPutCash, totalAmmReturnedCash, finishedAmms, lastAmmUninvested := [], 0.0, 0, 0.0;
      cashInvested, coinsInvested, cashReserve, amountRound, tick := 0.0, 0.0, 0.0, 0.0, 0;
      amms, buyLogs, lastPrice := [], [], 0.0;
      new;
      if ConfigOk(Cfg()) {
        PoppingInitial(Cfg());
      }
    }

    /** The reserve plus the cash every live position still holds. */
    method CashUnused() returns (unused: real)
      ensures unused == cashReserve + CashOf(amms)
    {
      unused := CashUnusedOf(cashReserve, amms);
    }

    method PastAmmCashUtilization() returns (u: Utilization)
      ensures u == FixedUtilization(Cfg(), State())
    {
      if tick <= ammTicksToExpire {
        return NotYet;
      }
      var n := tick - ammTicksToExpire;
      if n > |ammPutCash| {
        return Failed;
      }
      var cashPut := SumFirst(ammPutCash, n);
      if n != finishedAmms {
        return Failed;
      }
      u := Measure(Cfg(), State(), cashPut, n);
    }

    /** Funds today's position with the fixed amount and books the difference to the reserve. */
    method AmmCashToday() returns (cashDay: real)
      requires rebalanceCashRatio != 1.0
      modifies this
      ensures cashDay == FixedFunding(Cfg(), old(amountRound))
      ensures State() == Fund(old(State()), cashDay)
    {
      cashDay := BasicCashPerDay(amountRound) / (1.0 - rebalanceCashRatio) * estDcaCashUseRatio;
      cashReserve := cashReserve + (BasicCashPerDay(amountRound) - cashDay);
      ammPutCash := ammPutCash + [cashDay];
    }

    method SetSupply(amount: real)
      modifies this
      ensures State() == old(State()).(amountRound := amount, cashReserve := 0.0)
      ensures old(Valid()) ==> Valid()
    {
      amountRound := amount;
      cashReserve := 0.0;
    }

    /** `start_new_round` asserts that a round lasts `DAYS_PER_ROUND` ticks; `ok` is that assertion. */
    method StartNewRound(ticks: nat) returns (ok: bool)
      ensures ok <==> ticks == DAYS_PER_ROUND
    {
      ok := ticks == DAYS_PER_ROUND;
    }

    method FeedPrice(price: real)
      requires Valid() && price > 0.0
      modifies this
      ensures State() == FixedFeed(Cfg(), old(State()), price)
      ensures Valid()
    {
      ghost var s0 := State();
      PopExpiredAmms();
      var ammCash := AmmCashToday();
      PopFundStepsPositive(Cfg(), s0, ammCash);
      PushAndTradeAmms(price, ammCash);
      PoppingStepWf(Cfg(), s0, price, ammCash);
    }

    /** The expiry loop of `feed_price`: retires the expired positions at the front. */
    method PopExpiredAmms()
      modifies this
      ensures State() == PopExpiredState(old(State()))
    {
      var rest, handedBack, count, lastCash := PopExpired(amms, tick);
      if lastCash.Some? {
        lastAmmUninvested := lastCash.value - BasicCashPerDay(amountRound);
      }
      totalAmmReturnedCash := totalAmmReturnedCash + handedBack;
      finishedAmms := finishedAmms + count;
      cashReserve := cashReserve + handedBack;
      amms := rest;
    }

    /** The rest of `feed_price`: pushes the new position, runs the trade loop, advances the tick. */
    method PushAndTradeAmms(price: real, ammCash: real)
      requires price > 0.0 && rebalanceStepPercentage > 0.0 && StepsPositive(amms)
      modifies this
      ensures State() == PushAndTrade(Cfg(), old(State()), price, ammCash)
    {
      ghost var s0 := State();
      var newAmm := Position(price, tick + ammTicksToExpire, ammCash, 0.0,
                             rebalanceCashRatio, rebalanceStepPercentage);
      assert newAmm == NewPosition(Cfg(), s0, price, ammCash);
      PushKeepsStepsPositive(amms, newAmm);
      amms := amms + [newAmm];
      var cash, coins := TradeAmms(price);
      PushAndTradeIs(Cfg(), s0, price, ammCash, amms, cash, coins, buyLogs);
    }

    /** The trade loop of `feed_price` and the tick advance. */
    method TradeAmms(price: real) returns (cash: real, coins: real)
      requires price > 0.0 && StepsPositive(amms)
      modifies this
      ensures var t := TradeDown(old(amms), price);
        && cash == t.cash && coins == t.coins
        && State() == old(State()).(positions := t.positions, cashInvested := old(cashInvested) + cash,
                                    coinsInvested := old(coinsInvested) + coins, buyLogs := old(buyLogs) + t.log,
                                    tick := old(tick) + 1, lastPrice := price)
    {
      var traded, logs;
      traded, cash, coins, logs := TradePass(amms, price, buyLogs);
      amms, buyLogs, cashInvested, coinsInvested, tick, lastPrice :=
        traded, logs, cashInvested + cash, coinsInvested + coins, tick + 1, price;
    }

    /** The totals invested so far; under the invariant neither is negative. */
    method GetInvestStatus() returns (cash: real, coins: real)
      ensures cash == cashInvested && coins == coinsInvested
      ensures Valid() ==> cash >= 0.0 && coins >= 0.0
    {
      cash, coins := cashInvested, coinsInvested;
    }
  }
}
