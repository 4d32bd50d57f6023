/**
 * The imaginary ladder (`AMMCostAverage` of the cost_average module). It funds one new position
 * per tick with the fixed amount, like the popping ladder. But its expiry pass removes nothing:
 * every position at the front that has reached its expiry tick is counted as finished and its
 * cash is booked as handed back, and then the cash and coins are put back into it. So a position
 * stays in the queue, keeps trading, and is counted again on every later tick.
 */
module AmmCostAverage {
  import opened Common
  import opened Amm
  import opened Ladder

  // ---------------------------------------------------------------------------------------
  // How many times positions are counted as finished
  // ---------------------------------------------------------------------------------------

  /**
   * How many positions the expiry pass counts at tick `u`, when one position was created on
   * every earlier tick. With a horizon of 0 every one of them has expired; otherwise those
   * created up to tick u - horizon have.
   */
  function Recount(u: nat, horizon: nat): nat
  {
    if u < horizon then 0 else if horizon == 0 then u else u - horizon + 1
  }

  /** The finished count after the expiry passes of ticks 0 .. t - 1. */
  function ImaginaryFinished(t: nat, horizon: nat): nat
  {
    if t == 0 then 0 else ImaginaryFinished(t - 1, horizon) + Recount(t - 1, horizon)
  }

  /** 0 + 1 + ... + n. */
  function Tri(n: nat): nat
  {
    if n == 0 then 0 else Tri(n - 1) + n
  }

  /** With a horizon of at least one tick, the finished count n ticks after the horizon is Tri(n). */
  lemma {:induction false} ImaginaryFinishedTri(horizon: nat, n: nat)
    requires horizon >= 1
    ensures ImaginaryFinished(horizon + n, horizon) == Tri(n)
  {
    if n == 0 {
      ImaginaryFinishedBeforeHorizon(horizon, horizon);
    } else {
      ImaginaryFinishedTri(horizon, n - 1);
      assert Recount(horizon + n - 1, horizon) == n;
    }
  }

  /** Before the horizon nothing has been counted. */
  lemma {:induction false} ImaginaryFinishedBeforeHorizon(t: nat, horizon: nat)
    requires t <= horizon
    ensures ImaginaryFinished(t, horizon) == 0
  {
    if t > 0 {
      ImaginaryFinishedBeforeHorizon(t - 1, horizon);
    }
  }

  /** From n = 2 on, Tri(n) is larger than n. */
  lemma {:induction false} TriExceeds(n: nat)
    requires n >= 2
    ensures Tri(n) > n
  {
    if n > 2 {
      TriExceeds(n - 1);
    }
  }

  // ---------------------------------------------------------------------------------------
  // Specification on the value state
  // ---------------------------------------------------------------------------------------

  /**
   * The expiry pass of the imaginary ladder: like the popping pass, except that the positions
   * stay in the queue unchanged.
   */
  function ImaginaryExpiredState(s: LadderState): LadderState
  {
    var k := LeadingExpired(s.positions, s.tick);
    var handedBack := CashOf(s.positions[..k]);
    s.(returnedCash := s.returnedCash + handedBack,
       finishedAmms := s.finishedAmms + k,
       cashReserve := s.cashReserve + handedBack,
       lastAmmUninvested := if k == 0 then s.lastAmmUninvested
                            else s.positions[k - 1].cash - BasicCashPerDay(s.amountRound))
  }

  /**
   * Between two feeds the imaginary ladder holds every position it ever funded, position j
   * created on tick j, and has counted ImaginaryFinished(tick, horizon) positions as finished.
   */
  predicate ImaginaryWf(cfg: Config, s: LadderState)
  {
    && ConfigOk(cfg)
    && |s.ammPutCash| == s.tick
    && |s.positions| == s.tick
    && (forall j :: 0 <= j < |s.positions| ==> Scheduled(cfg, s.positions[j], j))
    && s.finishedAmms == ImaginaryFinished(s.tick, cfg.horizon)
    && s.cashInvested >= 0.0 && s.coinsInvested >= 0.0
  }

  lemma ImaginaryInitial(cfg: Config)
    requires ConfigOk(cfg)
    ensures ImaginaryWf(cfg, Initial)
  {
  }

  lemma ImaginaryStepsPositive(cfg: Config, s: LadderState)
    requires ImaginaryWf(cfg, s)
    ensures StepsPositive(s.positions)
  {
    forall j | 0 <= j < |s.positions|
      ensures s.positions[j].rebalanceStepPercentage > 0.0
    {
      assert Scheduled(cfg, s.positions[j], j);
    }
  }

  /** The expiry pass counts the positions created from `first` on up to tick - horizon. */
  lemma {:induction false} LeadingExpiredScheduled(cfg: Config, ps: seq<Position>, first: nat, tick: nat)
    requires forall j :: 0 <= j < |ps| ==> Scheduled(cfg, ps[j], first + j)
    ensures var due := tick - cfg.horizon - first + 1;
      LeadingExpired(ps, tick) == if due <= 0 then 0 else if due >= |ps| then |ps| else due
    decreases |ps|
  {
    if ps != [] {
      assert Scheduled(cfg, ps[0], first);
      if ps[0].tickToExpire <= tick {
        forall j | 0 <= j < |ps[1..]|
          ensures Scheduled(cfg, ps[1..][j], first + 1 + j)
        {
          assert ps[1..][j] == ps[1 + j];
          assert Scheduled(cfg, ps[1 + j], first + (1 + j));
        }
        LeadingExpiredScheduled(cfg, ps[1..], first + 1, tick);
      }
    }
  }

  /** Under the invariant the expiry pass at tick t counts Recount(t, horizon) positions. */
  lemma ImaginaryCounts(cfg: Config, s: LadderState)
    requires ImaginaryWf(cfg, s)
    ensures LeadingExpired(s.positions, s.tick) == Recount(s.tick, cfg.horizon)
  {
    LeadingExpiredScheduled(cfg, s.positions, 0, s.tick);
  }

  /** One `feed_price`: expiry pass, fixed funding, push, trade pass, next tick. */
  function ImaginaryFeed(cfg: Config, s: LadderState, price: real): LadderState
    requires ImaginaryWf(cfg, s) && price > 0.0
  {
    var s1 := ImaginaryExpiredState(s);
    var cashDay := FixedFunding(cfg, s1.amountRound);
    ImaginaryStepsPositive(cfg, s);
    PushAndTrade(cfg, Fund(s1, cashDay), price, cashDay)
  }

  /**
   * A feed keeps the invariant: it removes nothing, funds the fixed amount and records it once,
   * and counts Recount(tick, horizon) positions as finished, booking their cash as handed back.
   */
  lemma ImaginaryFeedFunds(cfg: Config, s: LadderState, price: real)
    requires ImaginaryWf(cfg, s) && price > 0.0
    ensures var s' := ImaginaryFeed(cfg, s, price);
      var k := Recount(s.tick, cfg.horizon);
      var cashDay := FixedFunding(cfg, s.amountRound);
      && ImaginaryWf(cfg, s')
      && k <= |s.positions|
      && s'.tick == s.tick + 1 && s'.lastPrice == price
      && |s'.positions| == |s.positions| + 1
      && s'.ammPutCash == s.ammPutCash + [cashDay]
      && s'.cashReserve == s.cashReserve + CashOf(s.positions[..k]) + (BasicCashPerDay(s.amountRound) - cashDay)
      && s'.returnedCash == s.returnedCash + CashOf(s.positions[..k])
      && s'.finishedAmms == s.finishedAmms + k
  {
    ImaginaryCounts(cfg, s);
    ImaginaryStepsPositive(cfg, s);
    var cashDay := FixedFunding(cfg, s.amountRound);
    var s1 := Fund(ImaginaryExpiredState(s), cashDay);
    assert s1.positions == s.positions;
    PushAndTradeStep(cfg, s1, price, cashDay, 0);
  }

  /**
   * `past_amm_cash_utilization` of the imaginary ladder: the sentinel while tick <= horizon;
   * otherwise it sums the cash put into the first `finishedAmms` positions and asserts that
   * exactly tick - horizon have finished.
   */
  function ImaginaryUtilization(cfg: Config, s: LadderState): Utilization
  {
    if s.tick <= cfg.horizon then NotYet
    else if s.finishedAmms > |s.ammPutCash| || s.tick - cfg.horizon != s.finishedAmms then Failed
    else Measure(cfg, s, Sum(s.ammPutCash[..s.finishedAmms]), s.finishedAmms)
  }

  /**
   * With a horizon of at least one tick, the assertion of `past_amm_cash_utilization` holds on
   * the first tick after the horizon only: from then on every tick counts its expired positions
   * again, so the finished count outgrows tick - horizon.
   */
  lemma ImaginaryUtilizationOutcome(cfg: Config, s: LadderState)
    requires ImaginaryWf(cfg, s) && cfg.horizon >= 1
    ensures s.tick <= cfg.horizon ==> ImaginaryUtilization(cfg, s) == NotYet
    ensures s.tick == cfg.horizon + 1 ==>
      && s.finishedAmms == 1
      && ImaginaryUtilization(cfg, s) == Measure(cfg, s, Sum(s.ammPutCash[..1]), 1)
    ensures s.tick >= cfg.horizon + 2 ==> s.finishedAmms > s.tick - cfg.horizon && ImaginaryUtilization(cfg, s) == Failed
  {
    if s.tick > cfg.horizon {
      var n := s.tick - cfg.horizon;
      ImaginaryFinishedTri(cfg.horizon, n);
      assert s.finishedAmms == Tri(n);
      if n >= 2 {
        TriExceeds(n);
      } else {
        assert Tri(1) == 1;
      }
    }
  }

  // ---------------------------------------------------------------------------------------
  // Loops
  // ---------------------------------------------------------------------------------------

  /**
   * The expiry loop of the imaginary ladder: walks the queue from the front while the positions
   * have expired. For each one it books its cash, counts it, and puts the cash and coins that
   * `check_expiration` took out back in. Returns the queue, which is unchanged, the cash booked,
   * the number counted and the cash of the last one counted.
   */
  method RestoringExpiryPass(amms: seq<Position>, tick: nat)
    returns (queue: seq<Position>, handedBack: real, count: nat, lastCash: Option<real>)
    ensures queue == amms
    ensures count == LeadingExpired(amms, tick)
    ensures handedBack == CashOf(amms[..count])
    ensures lastCash == if count == 0 then None else Some(amms[count - 1].cash)
  {
    queue, handedBack, count, lastCash := amms, 0.0, 0, None;
    while count < |queue|
      invariant queue == amms && count <= |amms|
      invariant forall j :: 0 <= j < count ==> amms[j].tickToExpire <= tick
      invariant handedBack == CashOf(amms[..count])
      invariant lastCash == if count == 0 then None else Some(amms[count - 1].cash)
      decreases |queue| - count
    {
      var e := ExpirationResult(queue[count], tick);
      if !e.expired {
        break;
      }
      CashOfPrefixStep(amms, count);
      handedBack := handedBack + e.cash;
      lastCash := Some(e.cash);
      queue := queue[count := e.position.(cash := e.cash, coins := e.coins)];
      count := count + 1;
    }
    LeadingExpiredFrom(amms, tick, count);
  }

  /** The leading expired count is `k` when the first `k` have expired and the next has not. */
  lemma {:induction false} LeadingExpiredFrom(ps: seq<Position>, tick: nat, k: nat)
    requires k <= |ps| && forall j :: 0 <= j < k ==> ps[j].tickToExpire <= tick
    requires k < |ps| ==> ps[k].tickToExpire > tick
    ensures LeadingExpired(ps, tick) == k
    decreases k
  {
    if k > 0 {
      assert ps[0].tickToExpire <= tick;
      forall j | 0 <= j < k - 1
        ensures ps[1..][j].tickToExpire <= tick
      {
        assert ps[1..][j] == ps[j + 1];
      }
      if k - 1 < |ps[1..]| {
        assert ps[1..][k - 1] == ps[k];
      }
      LeadingExpiredFrom(ps[1..], tick, k - 1);
    }
  }

  // ---------------------------------------------------------------------------------------
  // The allocator
  // ---------------------------------------------------------------------------------------

  class AMMCostAverage {
    var ammPutCash: seq<real>
    var imaginaryTotalAmmReturnedCash: real
    var finishedAmms: nat
    var lastAmmUninvested: real
    var cashInvested: real
    var coinsInvested: real
    var cashReserve: real
    const estDcaCashUseRatio: real
    var amountRound: real
    const imaginaryAmmTicksToExpire: nat
    var tick: nat
    const rebalanceCashRatio: real
    const rebalanceStepPercentage: real
    var amms: seq<Position>
    var buyLogs: BuyLogs
    var lastPrice: real

    function Cfg(): Config
    {
      Config(estDcaCashUseRatio, rebalanceCashRatio, rebalanceStepPercentage, imaginaryAmmTicksToExpire)
    }

    function State(): LadderState
      reads this
    {
      LadderState(ammPutCash, imaginaryTotalAmmReturnedCash, finishedAmms, lastAmmUninvested, cashInvested,
                  coinsInvested, cashReserve, amountRound, tick, amms, buyLogs, lastPrice)
    }

    predicate Valid()
      reads this
    {
      ImaginaryWf(Cfg(), State())
    }

    constructor (estDcaCashUseRatio: real, rebalanceCashRatio: real, rebalanceStepPercentage: real,
                 imaginaryAmmTicksToExpire: nat)
      ensures Cfg() == Config(estDcaCashUseRatio, rebalanceCashRatio, rebalanceStepPercentage, imaginaryAmmTicksToExpire)
      ensures State() == Initial
      ensures Valid() <==> ConfigOk(Cfg())
    {
      this.estDcaCashUseRatio := estDcaCashUseRatio;
      this.rebalanceCashRatio := rebalanceCashRatio;
      this.rebalanceStepPercentage := rebalanceStepPercentage;
      this.imaginaryAmmTicksToExpire := imaginaryAmmTicksToExpire;
      ammPutCash, imaginaryTotalAmmReturnedCash, finishedAmms, lastAmmUninvested := [], 0.0, 0, 0.0;
      cashInvested, coinsInvested, cashReserve, amountRound, tick := 0.0, 0.0, 0.0, 0.0, 0;
      amms, buyLogs, lastPrice := [], [], 0.0;
      new;
      if ConfigOk(Cfg()) {
        ImaginaryInitial(Cfg());
      }
    }

    /** The reserve plus the cash every position still holds. */
    method CashUnused() returns (unused: real)
      ensures unused == cashReserve + CashOf(amms)
    {
      unused := CashUnusedOf(cashReserve, amms);
    }

    method PastAmmCashUtilization() returns (u: Utilization)
      ensures u == ImaginaryUtilization(Cfg(), State())
    {
      if tick <= imaginaryAmmTicksToExpire {
        return NotYet;
      }
      if finishedAmms > |ammPutCash| {
        return Failed;
      }
      var cashPut := SumFirst(ammPutCash, finishedAmms);
      if tick - imaginaryAmmTicksToExpire != finishedAmms {
        return Failed;
      }
      u := Measure(Cfg(), State(), cashPut, finishedAmms);
    }

    /** Funds today's position with the fixed amount and books the difference to the reserve. */
    method AmmCashToday() returns (cashDay: real)
      requires rebalanceCashRatio != 1.0
      modifies this
      ensures cashDay == FixedFunding(Cfg(), old(amountRound))
      ensures State() == Fund(old(State()), cashDay)
    {
      cashDay := BasicCashPerDay(amountRound) / (1.0 - rebalanceCashRatio) * estDcaCashUseRatio;
      cashReserve := cashReserve + (BasicCashPerDay(amountRound) - cashDay);
      ammPutCash := ammPutCash + [cashDay];
    }

    method SetSupply(amount: real)
      modifies this
      ensures State() == old(State()).(amountRound := amount, cashReserve := 0.0)
      ensures old(Valid()) ==> Valid()
    {
      amountRound := amount;
      cashReserve := 0.0;
    }

    /** `start_new_round` asserts that a round lasts `DAYS_PER_ROUND` ticks; `ok` is that assertion. */
    method StartNewRound(ticks: nat) returns (ok: bool)
      ensures ok <==> ticks == DAYS_PER_ROUND
    {
      ok := ticks == DAYS_PER_ROUND;
    }

    method FeedPrice(price: real)
      requires Valid() && price > 0.0
      modifies this
      ensures State() == ImaginaryFeed(Cfg(), old(State()), price)
      ensures Valid()
    {
      ghost var s0 := State();
      CheckExpiredAmms();
      var ammCash := AmmCashToday();
      ImaginaryStepsPositive(Cfg(), s0);
      PushAndTradeAmms(price, ammCash);
      ImaginaryFeedFunds(Cfg(), s0, price);
    }

    /** The expiry loop of `feed_price`: books the expired positions at the front, removing none. */
    method CheckExpiredAmms()
      modifies this
      ensures State() == ImaginaryExpiredState(old(State()))
    {
      var basicCashPerDay := BasicCashPerDay(amountRound);
      var queue, handedBack, count, lastCash := RestoringExpiryPass(amms, tick);
      if lastCash.Some? {
        lastAmmUninvested := lastCash.value - basicCashPerDay;
      }
      imaginaryTotalAmmReturnedCash := imaginaryTotalAmmReturnedCash + handedBack;
      finishedAmms := finishedAmms + count;
      cashReserve := cashReserve + handedBack;
      amms := queue;
    }

    /** The rest of `feed_price`: pushes the new position, runs the trade loop, advances the tick. */
    method PushAndTradeAmms(price: real, ammCash: real)
      requires price > 0.0 && rebalanceStepPercentage > 0.0 && StepsPositive(amms)
      modifies this
      ensures State() == PushAndTrade(Cfg(), old(State()), price, ammCash)
    {
      ghost var s0 := State();
      var newAmm := Position(price, tick + imaginaryAmmTicksToExpire, ammCash, 0.0,
                             rebalanceCashRatio, rebalanceStepPercentage);
      assert newAmm == NewPosition(Cfg(), s0, price, ammCash);
      PushKeepsStepsPositive(amms, newAmm);
      amms := amms + [newAmm];
      var cash, coins := TradeAmms(price);
      PushAndTradeIs(Cfg(), s0, price, ammCash, amms, cash, coins, buyLogs);
    }

    /** The trade loop of `feed_price` and the tick advance. */
    method TradeAmms(price: real) returns (cash: real, coins: real)
      requires price > 0.0 && StepsPositive(amms)
      modifies this
      ensures var t := TradeDown(old(amms), price);
        && cash == t.cash && coins == t.coins
        && State() == old(State()).(positions := t.positions, cashInvested := old(cashInvested) + cash,
                                    coinsInvested := old(coinsInvested) + coins, buyLogs := old(buyLogs) + t.log,
                                    tick := old(tick) + 1, lastPrice := price)
    {
      var traded, logs;
      traded, cash, coins, logs := TradePass(amms, price, buyLogs);
      amms, buyLogs, cashInvested, coinsInvested, tick, lastPrice :=
        traded, logs, cashInvested + cash, coinsInvested + coins, tick + 1, price;
    }

    /** The totals invested so far; under the invariant neither is negative. */
    method GetInvestStatus() returns (cash: real, coins: real)
      ensures cash == cashInvested && coins == coinsInvested
      ensures Valid() ==> cash >= 0.0 && coins >= 0.0
    {
      cash, coins := cashInvested, coinsInvested;
    }
  }
}
