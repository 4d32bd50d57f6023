/**
 * The popping ladder that adjusts its daily funding (`AMMCostAverageAuto`). Until the horizon
 * has passed it funds every new position like the fixed ladder. Afterwards it compares what
 * the finished positions invested with what was expected of them. It then corrects the amount
 * by a share of the spending gap and by the over-investment factor, never going below zero.
 */
module AmmCostAverageAuto {
  import opened Common
  import opened Amm
  import opened Ladder
  import Tests

  /**
   * What `amm_cash_today` funds. It is either an amount, or a panic (a failed assertion or an
   * index out of bounds), or a value that is not a finite number, which comes from a division
   * by zero in the correction.
   */
  datatype Funding = Funded(cashDay: real) | Panics | NotFinite

  /**
   * `past_amm_cash_utilization` of this ladder. It adds the cash put into the first
   * `finishedAmms` positions, and it accepts either tick - horizon or one more finished position.
   */
  function AutoUtilization(cfg: Config, s: LadderState): Utilization
  {
    if s.tick <= cfg.horizon then NotYet
    else
      var f := s.finishedAmms;
      if f > |s.ammPutCash| then Failed
      else if !(s.tick - cfg.horizon == f || (f >= 1 && s.tick - cfg.horizon == f - 1)) then Failed
      else Measure(cfg, s, Sum(s.ammPutCash[..f]), f)
  }

  /**
   * The adjustment of `amm_cash_today`: `pct` of the gap between `expected` and `invested`, plus
   * the basic amount times 1 / (over * useRatio) - 1.
   */
  function Adjustment(cfg: Config, pct: real, amountRound: real, expected: real, invested: real, over: real): real
    requires over * cfg.useRatio != 0.0
  {
    (expected - invested) * pct + BasicCashPerDay(amountRound) * (1.0 / (over * cfg.useRatio) - 1.0)
  }

  /** An amount scaled like the funding: divided by 1 - cashRatio, times useRatio. */
  function Scaled(cfg: Config, amount: real): real
    requires cfg.cashRatio != 1.0
  {
    amount / (1.0 - cfg.cashRatio) * cfg.useRatio
  }

  /** The corrected funding before clamping: the fixed funding plus the scaled adjustment. */
  function Corrected(cfg: Config, pct: real, amountRound: real, expected: real, invested: real, over: real): real
    requires cfg.cashRatio != 1.0 && over * cfg.useRatio != 0.0
  {
    FixedFunding(cfg, amountRound) + Scaled(cfg, Adjustment(cfg, pct, amountRound, expected, invested, over))
  }

  /** What the funding plan expected `count` positions to have spent: the basic amount each. */
  function ExpectedSpending(amountRound: real, count: nat): real
  {
    BasicCashPerDay(amountRound) * (count as real)
  }

  /**
   * The funding after the horizon, given the utilization: a panic when it failed, a value that
   * is not finite when the factor is missing or times useRatio is zero, and otherwise the
   * corrected amount clamped at zero.
   */
  function CorrectedFunding(cfg: Config, pct: real, amountRound: real, expected: real, u: Utilization): (f: Funding)
    requires cfg.cashRatio != 1.0
    ensures f.Funded? ==> f.cashDay >= 0.0
  {
    if !u.Measured? then Panics
    else if u.overInvestFactor.None? || u.overInvestFactor.value * cfg.useRatio == 0.0 then NotFinite
    else
      var d := Corrected(cfg, pct, amountRound, expected, u.cashInvested, u.overInvestFactor.value);
      Funded(if d < 0.0 then 0.0 else d)
  }

  /**
   * `amm_cash_today` on the state left by the expiry pass. At or before the horizon it funds
   * the fixed amount. After it, it asserts that tick - horizon + 1 positions have finished,
   * measures them, and funds the corrected amount.
   */
  function AutoFunding(cfg: Config, pct: real, s: LadderState): (f: Funding)
    requires cfg.cashRatio != 1.0
    ensures s.tick <= cfg.horizon ==> f == Funded(FixedFunding(cfg, s.amountRound))
    ensures s.tick > cfg.horizon && f.Funded? ==> f.cashDay >= 0.0
  {
    if s.tick <= cfg.horizon then Funded(FixedFunding(cfg, s.amountRound))
    else if s.finishedAmms != s.tick - cfg.horizon + 1 then Panics
    else CorrectedFunding(cfg, pct, s.amountRound, ExpectedSpending(s.amountRound, s.tick - cfg.horizon + 1),
                          AutoUtilization(cfg, s))
  }

  /** One `feed_price` whose funding is an amount: expiry pass, funding, push, trade pass. */
  function AutoFeed(cfg: Config, pct: real, s: LadderState, price: real): LadderState
    requires PoppingWf(cfg, s) && price > 0.0
    requires AutoFunding(cfg, pct, PopExpiredState(s)).Funded?
  {
    var s1 := PopExpiredState(s);
    var cashDay := AutoFunding(cfg, pct, s1).cashDay;
    PopFundStepsPositive(cfg, s, cashDay);
    PushAndTrade(cfg, Fund(s1, cashDay), price, cashDay)
  }

  // ---------------------------------------------------------------------------------------
  // The correction
  // ---------------------------------------------------------------------------------------

  /** Scaling keeps the sign of an amount when the cash ratio is below 1 and the use ratio positive. */
  lemma ScaledSign(cfg: Config, amount: real)
    requires cfg.cashRatio < 1.0 && cfg.useRatio > 0.0
    ensures amount >= 0.0 ==> Scaled(cfg, amount) >= 0.0
    ensures amount <= 0.0 ==> Scaled(cfg, amount) <= 0.0
  {
    var d := 1.0 - cfg.cashRatio;
    var q := amount / d;
    assert q * d == amount;
    if amount >= 0.0 {
      if q < 0.0 {
        MulStrictMonotone(q, 0.0, d);
      }
      MulMonotone(0.0, q, cfg.useRatio);
    }
    if amount <= 0.0 {
      if q > 0.0 {
        MulStrictMonotone(0.0, q, d);
      }
      MulMonotone(q, 0.0, cfg.useRatio);
    }
  }

  /** The reciprocal of a positive number is at least 1 when the number is at most 1, and back. */
  lemma Reciprocal(x: real)
    requires x > 0.0
    ensures x <= 1.0 ==> 1.0 / x >= 1.0
    ensures x >= 1.0 ==> 1.0 / x <= 1.0
  {
    var y := 1.0 / x;
    assert y * x == 1.0;
    assert y > 0.0;
    assert y - 1.0 == y * (1.0 - x);
    if x <= 1.0 {
      MulMonotone(0.0, 1.0 - x, y);
    } else {
      MulMonotone(0.0, x - 1.0, y);
    }
  }

  /**
   * When the finished positions invested exactly what was expected, and the over-investment
   * factor matches the expected use ratio, there is nothing to correct.
   */
  lemma CorrectedOnTarget(cfg: Config, pct: real, amountRound: real, expected: real, over: real)
    requires cfg.cashRatio != 1.0 && over * cfg.useRatio == 1.0
    ensures Corrected(cfg, pct, amountRound, expected, expected, over) == FixedFunding(cfg, amountRound)
  {
    assert 1.0 / (over * cfg.useRatio) == 1.0;
    assert Adjustment(cfg, pct, amountRound, expected, expected, over) == 0.0;
    assert Scaled(cfg, 0.0) == 0.0;
  }

  /**
   * A ladder behind its spending target, whose factor is at most what was expected, never funds
   * less than the fixed amount.
   */
  lemma CorrectedRaisesWhenBehind(cfg: Config, pct: real, amountRound: real, expected: real,
                                  invested: real, over: real)
    requires cfg.cashRatio < 1.0 && cfg.useRatio > 0.0 && pct >= 0.0 && amountRound >= 0.0
    requires invested <= expected && 0.0 < over * cfg.useRatio <= 1.0
    ensures Corrected(cfg, pct, amountRound, expected, invested, over) >= FixedFunding(cfg, amountRound)
  {
    var x := over * cfg.useRatio;
    Reciprocal(x);
    MulMonotone(0.0, expected - invested, pct);
    MulMonotone(0.0, 1.0 / x - 1.0, BasicCashPerDay(amountRound));
    ScaledSign(cfg, Adjustment(cfg, pct, amountRound, expected, invested, over));
  }

  /**
   * A ladder ahead of its spending target, whose factor is at least what was expected, never
   * funds more than the fixed amount.
   */
  lemma CorrectedLowersWhenAhead(cfg: Config, pct: real, amountRound: real, expected: real,
                                 invested: real, over: real)
    requires cfg.cashRatio < 1.0 && cfg.useRatio > 0.0 && pct >= 0.0 && amountRound >= 0.0
    requires invested >= expected && over * cfg.useRatio >= 1.0
    ensures Corrected(cfg, pct, amountRound, expected, invested, over) <= FixedFunding(cfg, amountRound)
  {
    var x := over * cfg.useRatio;
    Reciprocal(x);
    MulMonotone(expected - invested, 0.0, pct);
    MulMonotone(1.0 / x - 1.0, 0.0, BasicCashPerDay(amountRound));
    ScaledSign(cfg, Adjustment(cfg, pct, amountRound, expected, invested, over));
  }

  // ---------------------------------------------------------------------------------------
  // The assertions of the auto ladder
  // ---------------------------------------------------------------------------------------

  /**
   * With a horizon of at least one tick, neither the assertion of `amm_cash_today` nor the
   * utilization it calls can fail on a state with the invariant.
   */
  lemma AutoFundingNeverPanics(cfg: Config, pct: real, s: LadderState)
    requires PoppingWf(cfg, s) && cfg.horizon >= 1
    ensures AutoFunding(cfg, pct, PopExpiredState(s)) != Panics
  {
    PoppedCount(cfg, s);
    var s1 := PopExpiredState(s);
    if s1.tick > cfg.horizon {
      assert s1.finishedAmms == s1.tick - cfg.horizon + 1;
      assert |s1.ammPutCash| == s1.tick;
      assert AutoUtilization(cfg, s1).Measured?;
    }
  }

  /**
   * With a horizon of 0, one position more than tick - horizon + 1 has finished once the first
   * tick is over, so `amm_cash_today` panics on every later tick.
   */
  lemma AutoFundingPanicsWithoutHorizon(cfg: Config, pct: real, s: LadderState)
    requires PoppingWf(cfg, s) && cfg.horizon == 0 && s.tick >= 1
    ensures AutoFunding(cfg, pct, PopExpiredState(s)) == Panics
  {
    PopsOneOnceLagged(cfg, s);
  }

  /**
   * Between two feeds of a ladder with a horizon of at least one tick, the utilization is the
   * sentinel up to the horizon, and a measurement of tick - horizon finished positions after.
   */
  lemma AutoUtilizationBetweenFeeds(cfg: Config, s: LadderState)
    requires PoppingWf(cfg, s) && cfg.horizon >= 1
    ensures s.tick <= cfg.horizon ==> AutoUtilization(cfg, s) == NotYet
    ensures s.tick > cfg.horizon ==>
      && s.finishedAmms == s.tick - cfg.horizon
      && AutoUtilization(cfg, s) == Measure(cfg, s, Sum(s.ammPutCash[..s.finishedAmms]), s.finishedAmms)
  {
  }

  /** With a horizon of 0 the utilization fails between feeds on every tick after the first. */
  lemma AutoUtilizationFailsWithoutHorizon(cfg: Config, s: LadderState)
    requires PoppingWf(cfg, s) && cfg.horizon == 0 && s.tick >= 1
    ensures AutoUtilization(cfg, s) == Failed
  {
  }

  /**
   * After the horizon, a ladder whose finished positions invested less than expected, with a
   * factor at most what was expected, funds at least the fixed amount.
   */
  lemma AutoFundingRaisesWhenBehind(cfg: Config, pct: real, s: LadderState)
    requires PoppingWf(cfg, s) && cfg.horizon >= 1 && s.tick > cfg.horizon
    requires cfg.cashRatio < 1.0 && cfg.useRatio > 0.0 && pct >= 0.0 && s.amountRound >= 0.0
    requires var u := AutoUtilization(cfg, PopExpiredState(s));
      && u.Measured? && u.overInvestFactor.Some?
      && u.cashInvested <= ExpectedSpending(s.amountRound, s.tick - cfg.horizon + 1)
      && 0.0 < u.overInvestFactor.value * cfg.useRatio <= 1.0
    ensures var f := AutoFunding(cfg, pct, PopExpiredState(s));
      f.Funded? && f.cashDay >= FixedFunding(cfg, s.amountRound)
  {
    PoppedCount(cfg, s);
    var u := AutoUtilization(cfg, PopExpiredState(s));
    CorrectedRaisesWhenBehind(cfg, pct, s.amountRound, ExpectedSpending(s.amountRound, s.tick - cfg.horizon + 1),
                              u.cashInvested, u.overInvestFactor.value);
  }

  /**
   * After the horizon, a ladder whose finished positions invested more than expected, with a
   * factor at least what was expected, funds at most the fixed amount.
   */
  lemma AutoFundingLowersWhenAhead(cfg: Config, pct: real, s: LadderState)
    requires PoppingWf(cfg, s) && cfg.horizon >= 1 && s.tick > cfg.horizon
    requires cfg.cashRatio < 1.0 && cfg.useRatio > 0.0 && pct >= 0.0 && s.amountRound >= 0.0
    requires var u := AutoUtilization(cfg, PopExpiredState(s));
      && u.Measured? && u.overInvestFactor.Some?
      && u.cashInvested >= ExpectedSpending(s.amountRound, s.tick - cfg.horizon + 1)
      && u.overInvestFactor.value * cfg.useRatio >= 1.0
    ensures var f := AutoFunding(cfg, pct, PopExpiredState(s));
      f.Funded? && f.cashDay <= FixedFunding(cfg, s.amountRound)
  {
    PoppedCount(cfg, s);
    var u := AutoUtilization(cfg, PopExpiredState(s));
    CorrectedLowersWhenAhead(cfg, pct, s.amountRound, ExpectedSpending(s.amountRound, s.tick - cfg.horizon + 1),
                             u.cashInvested, u.overInvestFactor.value);
    FixedFundingNonNegative(cfg, s.amountRound);
  }

  lemma FixedFundingNonNegative(cfg: Config, amountRound: real)
    requires cfg.cashRatio < 1.0 && cfg.useRatio > 0.0 && amountRound >= 0.0
    ensures FixedFunding(cfg, amountRound) >= 0.0
  {
    ScaledSign(cfg, BasicCashPerDay(amountRound));
  }

  // ---------------------------------------------------------------------------------------
  // A feed
  // ---------------------------------------------------------------------------------------

  /**
   * A feed keeps the invariant and records the funded amount once. The reserve keeps what the
   * basic amount does not cover, and the funded amount is never negative after the horizon.
   */
  lemma AutoFeedFunds(cfg: Config, pct: real, s: LadderState, price: real)
    requires PoppingWf(cfg, s) && price > 0.0
    requires AutoFunding(cfg, pct, PopExpiredState(s)).Funded?
    ensures var s' := AutoFeed(cfg, pct, s, price);
      var k := LeadingExpired(s.positions, s.tick);
      var cashDay := AutoFunding(cfg, pct, PopExpiredState(s)).cashDay;
      && PoppingWf(cfg, s')
      && s'.tick == s.tick + 1 && s'.lastPrice == price
      && s'.ammPutCash == s.ammPutCash + [cashDay]
      && s'.cashReserve == s.cashReserve + CashOf(s.positions[..k]) + (BasicCashPerDay(s.amountRound) - cashDay)
      && s'.returnedCash == s.returnedCash + CashOf(s.positions[..k])
      && s'.finishedAmms == s.finishedAmms + k
      && (s.tick > cfg.horizon ==> cashDay >= 0.0)
  {
    var cashDay := AutoFunding(cfg, pct, PopExpiredState(s)).cashDay;
    PoppingStepWf(cfg, s, price, cashDay);
  }

  /** Up to the horizon the auto ladder feeds exactly like the fixed ladder. */
  lemma AutoFeedIsFixedBeforeHorizon(cfg: Config, pct: real, s: LadderState, price: real)
    requires PoppingWf(cfg, s) && price > 0.0 && s.tick <= cfg.horizon
    ensures AutoFunding(cfg, pct, PopExpiredState(s)) == Funded(FixedFunding(cfg, s.amountRound))
    ensures AutoFeed(cfg, pct, s, price) == Tests.FixedFeed(cfg, s, price)
  {
  }

  /**
   * The correction step of `amm_cash_today` once the finished positions have been measured:
   * the two adjustments, their sum scaled like the funding, and the clamp at zero.
   */
  method CorrectCashDay(cfg: Config, pct: real, amountRound: real, expectedSpending: real, u: Utilization)
    returns (f: Funding)
    requires cfg.cashRatio != 1.0
    ensures f == CorrectedFunding(cfg, pct, amountRound, expectedSpending, u)
  {
    if !u.Measured? {
      return Panics;
    }
    if u.overInvestFactor.None? || u.overInvestFactor.value * cfg.useRatio == 0.0 {
      return NotFinite;
    }
    var cashDay := BasicCashPerDay(amountRound) / (1.0 - cfg.cashRatio) * cfg.useRatio;
    assert cashDay == FixedFunding(cfg, amountRound);
    var difference := expectedSpending - u.cashInvested;
    var adjust1 := difference * pct;
    var adjust2 := BasicCashPerDay(amountRound) * (1.0 / (u.overInvestFactor.value * cfg.useRatio) - 1.0);
    var adjust := adjust1 + adjust2;
    assert adjust == Adjustment(cfg, pct, amountRound, expectedSpending, u.cashInvested, u.overInvestFactor.value);
    cashDay := cashDay + adjust / (1.0 - cfg.cashRatio) * cfg.useRatio;
    assert cashDay == Corrected(cfg, pct, amountRound, expectedSpending, u.cashInvested, u.overInvestFactor.value);
    if cashDay < 0.0 {
      cashDay := 0.0;
    }
    f := Funded(cashDay);
  }

  // ---------------------------------------------------------------------------------------
  // The allocator
  // ---------------------------------------------------------------------------------------

  class AMMCostAverageAuto {
    var ammPutCash: seq<real>
    var totalAmmReturnedCash: real
    var finishedAmms: nat
    var lastAmmUninvested: real
    var cashInvested: real
    var coinsInvested: real
    var cashReserve: real
    const estDcaCashUseRatio: real
    var amountRound: real
    const ammTicksToExpire: nat
    var tick: nat
    const rebalanceCashRatio: real
    const rebalanceStepPercentage: real
    var amms: seq<Position>
    var buyLogs: BuyLogs
    var lastPrice: real
    /** The share of the spending gap that one day's funding makes up. */
    const pastUninvestedReinvestDailyPercentage: real

    function Cfg(): Config
    {
      Config(estDcaCashUseRatio, rebalanceCashRatio, rebalanceStepPercentage, ammTicksToExpire)
    }

    function State(): LadderState
      reads this
    {
      LadderState(ammPutCash, totalAmmReturnedCash, finishedAmms, lastAmmUninvested, cashInvested,
                  coinsInvested, cashReserve, amountRound, tick, amms, buyLogs, lastPrice)
    }

    predicate Valid()
      reads this
    {
      PoppingWf(Cfg(), State())
    }

    constructor (estDcaCashUseRatio: real, rebalanceCashRatio: real, rebalanceStepPercentage: real,
                 ammTicksToExpire: nat, pastUninvestedReinvestDailyPercentage: real)
      ensures Cfg() == Config(estDcaCashUseRatio, rebalanceCashRatio, rebalanceStepPercentage, ammTicksToExpire)
      ensures this.pastUninvestedReinvestDailyPercentage == pastUninvestedReinvestDailyPercentage
      ensures State() == Initial
      ensures Valid() <==> ConfigOk(Cfg())
    {
      this.estDcaCashUseRatio := estDcaCashUseRatio;
      this.rebalanceCashRatio := rebalanceCashRatio;
      this.rebalanceStepPercentage := rebalanceStepPercentage;
      this.ammTicksToExpire := ammTicksToExpire;
      this.pastUninvestedReinvestDailyPercentage := pastUninvestedReinvestDailyPercentage;
      ammPutCash, totalAmmReturnedCash, finishedAmms, lastAmmUninvested := [], 0.0, 0, 0.0;
      cashInvested, coinsInvested, cashReserve, amountRound, tick := 0.0, 0.0, 0.0, 0.0, 0;
      amms, buyLogs, lastPrice := [], [], 0.0;
      new;
      if ConfigOk(Cfg()) {
        PoppingInitial(Cfg());
      }
    }

    /** The reserve plus the cash every live position still holds. */
    method CashUnused() returns (unused: real)
      ensures unused == cashReserve + CashOf(amms)
    {
      unused := CashUnusedOf(cashReserve, amms);
    }

    method PastAmmCashUtilization() returns (u: Utilization)
      ensures u == AutoUtilization(Cfg(), State())
    {
      if tick <= ammTicksToExpire {
        return NotYet;
      }
      if finishedAmms > |ammPutCash| {
        return Failed;
      }
      var cashPut := SumFirst(ammPutCash, finishedAmms);
      var counted := tick - ammTicksToExpire;
      if !(counted == finishedAmms || (finishedAmms >= 1 && counted == finishedAmms - 1)) {
        return Failed;
      }
      u := Measure(Cfg(), State(), cashPut, finishedAmms);
    }

    /**
     * Funds today's position and books the difference to the reserve. On a panic or a value
     * that is not finite, nothing is recorded.
     */
    method AmmCashToday() returns (f: Funding)
      requires rebalanceCashRatio != 1.0
      modifies this
      ensures f == AutoFunding(Cfg(), pastUninvestedReinvestDailyPercentage, old(State()))
      ensures f.Funded? ==> State() == Fund(old(State()), f.cashDay)
      ensures !f.Funded? ==> State() == old(State())
    {
      f := CashDay();
      if f.Funded? {
        cashReserve := cashReserve + (BasicCashPerDay(amountRound) - f.cashDay);
        ammPutCash := ammPutCash + [f.cashDay];
      }
    }

    /** The computation of `amm_cash_today`, up to where it books the amount. */
    method CashDay() returns (f: Funding)
      requires rebalanceCashRatio != 1.0
      ensures f == AutoFunding(Cfg(), pastUninvestedReinvestDailyPercentage, State())
    {
      if tick <= ammTicksToExpire {
        var cashDay := BasicCashPerDay(amountRound) / (1.0 - rebalanceCashRatio) * estDcaCashUseRatio;
        assert cashDay == FixedFunding(Cfg(), amountRound);
        return Funded(cashDay);
      }
      if finishedAmms != tick - ammTicksToExpire + 1 {
        return Panics;
      }
      var u := PastAmmCashUtilization();
      var expectedSpending := BasicCashPerDay(amountRound) * ((tick - ammTicksToExpire + 1) as real);
      assert expectedSpending == ExpectedSpending(amountRound, tick - ammTicksToExpire + 1);
      f := CorrectCashDay(Cfg(), pastUninvestedReinvestDailyPercentage, amountRound, expectedSpending, u);
    }

    method SetSupply(amount: real)
      modifies this
      ensures State() == old(State()).(amountRound := amount, cashReserve := 0.0)
      ensures old(Valid()) ==> Valid()
    {
      amountRound := amount;
      cashReserve := 0.0;
    }

    /**
     * `start_new_round` first logs the utilization, which can panic, and then asserts that a
     * round lasts `DAYS_PER_ROUND` ticks; `ok` is that neither fails.
     */
    method StartNewRound(ticks: nat) returns (ok: bool)
      ensures ok <==> !AutoUtilization(Cfg(), State()).Failed? && ticks == DAYS_PER_ROUND
    {
      var u := PastAmmCashUtilization();
      ok := !u.Failed? && ticks == DAYS_PER_ROUND;
    }

    /**
     * One tick. `f` is the day's funding; when it is an amount the whole feed happens, and
     * otherwise the feed stops after the expiry pass.
     */
    method FeedPrice(price: real) returns (f: Funding)
      requires Valid() && price > 0.0
      modifies this
      ensures f == AutoFunding(Cfg(), pastUninvestedReinvestDailyPercentage, PopExpiredState(old(State())))
      ensures f.Funded? ==> State() == AutoFeed(Cfg(), pastUninvestedReinvestDailyPercentage, old(State()), price)
      ensures f.Funded? ==> Valid()
      ensures !f.Funded? ==> State() == PopExpiredState(old(State()))
    {
      ghost var s0 := State();
      PopExpiredAmms();
      f := AmmCashToday();
      if f.Funded? {
        PopFundStepsPositive(Cfg(), s0, f.cashDay);
        PushAndTradeAmms(price, f.cashDay);
        PoppingStepWf(Cfg(), s0, price, f.cashDay);
      }
    }

    /** The expiry loop of `feed_price`: retires the expired positions at the front. */
    method PopExpiredAmms()
      modifies this
      ensures State() == PopExpiredState(old(State()))
    {
      var rest, handedBack, count, lastCash := PopExpired(amms, tick);
      if lastCash.Some? {
        lastAmmUninvested := lastCash.value - BasicCashPerDay(amountRound);
      }
      totalAmmReturnedCash := totalAmmReturnedCash + handedBack;
      finishedAmms := finishedAmms + count;
      cashReserve := cashReserve + handedBack;
      amms := rest;
    }

    /** The rest of `feed_price`: pushes the new position, runs the trade loop, advances the tick. */
    method PushAndTradeAmms(price: real, ammCash: real)
      requires price > 0.0 && rebalanceStepPercentage > 0.0 && StepsPositive(amms)
      modifies this
      ensures State() == PushAndTrade(Cfg(), old(State()), price, ammCash)
    {
      ghost var s0 := State();
      var newAmm := Position(price, tick + ammTicksToExpire, ammCash, 0.0,
                             rebalanceCashRatio, rebalanceStepPercentage);
      assert newAmm == NewPosition(Cfg(), s0, price, ammCash);
      PushKeepsStepsPositive(amms, newAmm);
      amms := amms + [newAmm];
      var cash, coins := TradeAmms(price);
      PushAndTradeIs(Cfg(), s0, price, ammCash, amms, cash, coins, buyLogs);
    }

    /** The trade loop of `feed_price` and the tick advance. */
    method TradeAmms(price: real) returns (cash: real, coins: real)
      requires price > 0.0 && StepsPositive(amms)
      modifies this
      ensures var t := TradeDown(old(amms), price);
        && cash == t.cash && coins == t.coins
        && State() == old(State()).(positions := t.positions, cashInvested := old(cashInvested) + cash,
                                    coinsInvested := old(coinsInvested) + coins, buyLogs := old(buyLogs) + t.log,
                                    tick := old(tick) + 1, lastPrice := price)
    {
      var traded, logs;
      traded, cash, coins, logs := TradePass(amms, price, buyLogs);
      amms, buyLogs, cashInvested, coinsInvested, tick, lastPrice :=
        traded, logs, cashInvested + cash, coinsInvested + coins, tick + 1, price;
    }

    /**
     * `get_invest_status` first logs the utilization, which can panic; otherwise it returns the
     * totals invested, neither of which is negative under the invariant.
     */
    method GetInvestStatus() returns (status: Option<(real, real)>)
      ensures status.Some? <==> !AutoUtilization(Cfg(), State()).Failed?
      ensures status.Some? ==> status.value == (cashInvested, coinsInvested)
      ensures Valid() && status.Some? ==> status.value.0 >= 0.0 && status.value.1 >= 0.0
    {
      var u := PastAmmCashUtilization();
      if u.Failed? {
        return None;
      }
      status := Some((cashInvested, coinsInvested));
    }
  }
}
