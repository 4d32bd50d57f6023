/**
 * What the three AMM ladder allocators have in common: every tick retires the positions at the
 * front of the queue whose expiry tick has come, funds one new AMMBuyBear position at the
 * current price, and then lets the positions trade from the newest to the oldest until one is
 * found whose last price is below the current price.
 *
 * The ladder objects are classes (see the three allocator modules); this module holds their
 * value-level state `LadderState`, the specification of each step of `feed_price` on it, and
 * the loops that the allocators share.
 */
module Ladder {
  import opened Common
  import opened Amm

  /** The fixed parameters of a ladder. */
  datatype Config = Config(useRatio: real, cashRatio: real, step: real, horizon: nat)

  /**
   * Parameters under which `feed_price` is defined: the funding formula divides by
   * 1 - cashRatio, and every staircase needs a positive step to terminate.
   */
  predicate ConfigOk(cfg: Config)
  {
    cfg.cashRatio != 1.0 && cfg.step > 0.0
  }

  /** Every field of a ladder allocator, with its positions as value snapshots. */
  datatype LadderState = LadderState(
    ammPutCash: seq<real>,
    returnedCash: real,
    finishedAmms: nat,
    lastAmmUninvested: real,
    cashInvested: real,
    coinsInvested: real,
    cashReserve: real,
    amountRound: real,
    tick: nat,
    positions: seq<Position>,
    buyLogs: BuyLogs,
    lastPrice: real)

  /** The state every constructor sets up. */
  const Initial: LadderState :=
    LadderState([], 0.0, 0, 0.0, 0.0, 0.0, 0.0, 0.0, 0, [], [], 0.0)

  /** `basic_cash_per_day`: the round's budget spread evenly over the round. */
  function BasicCashPerDay(amountRound: real): (r: real)
    ensures r * (DAYS_PER_ROUND as real) == amountRound
  {
    amountRound / (DAYS_PER_ROUND as real)
  }

  /**
   * The fixed daily funding of a new position: the basic amount, scaled up so that the part a
   * position is expected to spend (1 - cashRatio of its cash, times useRatio) is the basic amount.
   */
  function FixedFunding(cfg: Config, amountRound: real): (r: real)
    requires cfg.cashRatio != 1.0
    ensures r * (1.0 - cfg.cashRatio) == BasicCashPerDay(amountRound) * cfg.useRatio
  {
    BasicCashPerDay(amountRound) / (1.0 - cfg.cashRatio) * cfg.useRatio
  }

  // ---------------------------------------------------------------------------------------
  // Positions as a queue
  // ---------------------------------------------------------------------------------------

  predicate StepsPositive(ps: seq<Position>)
  {
    forall j :: 0 <= j < |ps| ==> ps[j].rebalanceStepPercentage > 0.0
  }

  lemma PushKeepsStepsPositive(ps: seq<Position>, p: Position)
    requires StepsPositive(ps) && p.rebalanceStepPercentage > 0.0
    ensures StepsPositive(ps + [p])
  {
    assert forall j :: 0 <= j < |ps| ==> (ps + [p])[j] == ps[j];
  }

  /** Total cash held by a sequence of positions, added from the front. */
  function CashOf(ps: seq<Position>): real
  {
    if ps == [] then 0.0 else CashOf(ps[..|ps| - 1]) + ps[|ps| - 1].cash
  }

  lemma CashOfPrefixStep(ps: seq<Position>, i: nat)
    requires i < |ps|
    ensures CashOf(ps[..i + 1]) == CashOf(ps[..i]) + ps[i].cash
  {
    assert ps[..i + 1][..i] == ps[..i];
  }

  /** How many positions at the front of the queue have reached their expiry tick. */
  function LeadingExpired(ps: seq<Position>, tick: nat): (k: nat)
    ensures k <= |ps|
    ensures forall j :: 0 <= j < k ==> ps[j].tickToExpire <= tick
    ensures k < |ps| ==> ps[k].tickToExpire > tick
  {
    if ps == [] || ps[0].tickToExpire > tick then 0 else 1 + LeadingExpired(ps[1..], tick)
  }

  // ---------------------------------------------------------------------------------------
  // The trade pass
  // ---------------------------------------------------------------------------------------

  /** What a trade pass leaves behind: the positions, the cash and coins invested, the log. */
  datatype Trade = Trade(positions: seq<Position>, cash: real, coins: real, log: BuyLogs)

  /**
   * The index of the newest position whose last price is below `price`, or -1 when there is
   * none: the trade pass of `feed_price` stops there.
   */
  function TradeFloor(ps: seq<Position>, price: real): (f: int)
    ensures -1 <= f < |ps|
    ensures f >= 0 ==> ps[f].lastPrice < price
    ensures forall j :: f < j < |ps| ==> ps[j].lastPrice >= price
  {
    if ps == [] then -1
    else if ps[|ps| - 1].lastPrice < price then |ps| - 1
    else TradeFloor(ps[..|ps| - 1], price)
  }

  /** The trade floor is the one index below which no position is at or above `price`. */
  lemma TradeFloorAt(ps: seq<Position>, price: real, lo: nat)
    requires lo <= |ps| && forall j :: lo <= j < |ps| ==> ps[j].lastPrice >= price
    requires lo == 0 || ps[lo - 1].lastPrice < price
    ensures TradeFloor(ps, price) + 1 == lo
  {
  }

  /** Cash that the positions from index `lo` on invest when each buys at `price`. */
  function CashFrom(ps: seq<Position>, lo: nat, price: real): real
    requires price > 0.0 && StepsPositive(ps) && lo <= |ps|
    decreases |ps| - lo
  {
    if lo == |ps| then 0.0 else CashFrom(ps, lo + 1, price) + BuyResult(ps[lo], price).cashInvested
  }

  /** Coins that the positions from index `lo` on buy at `price`. */
  function CoinsFrom(ps: seq<Position>, lo: nat, price: real): real
    requires price > 0.0 && StepsPositive(ps) && lo <= |ps|
    decreases |ps| - lo
  {
    if lo == |ps| then 0.0 else CoinsFrom(ps, lo + 1, price) + BuyResult(ps[lo], price).coinsInvested
  }

  /** The purchases of the positions from index `lo` on, the newest position's first. */
  function LogFrom(ps: seq<Position>, lo: nat, price: real): BuyLogs
    requires price > 0.0 && StepsPositive(ps) && lo <= |ps|
    decreases |ps| - lo
  {
    if lo == |ps| then [] else LogFrom(ps, lo + 1, price) + BuyResult(ps[lo], price).log
  }

  /** `base` with the purchases of the positions from index `lo` on appended, the newest first. */
  function AppendLogFrom(base: BuyLogs, ps: seq<Position>, lo: nat, price: real): BuyLogs
    requires price > 0.0 && StepsPositive(ps) && lo <= |ps|
    decreases |ps| - lo
  {
    if lo == |ps| then base else AppendLogFrom(base, ps, lo + 1, price) + BuyResult(ps[lo], price).log
  }

  lemma {:induction false} AppendLogFromIsAppend(base: BuyLogs, ps: seq<Position>, lo: nat, price: real)
    requires price > 0.0 && StepsPositive(ps) && lo <= |ps|
    ensures AppendLogFrom(base, ps, lo, price) == base + LogFrom(ps, lo, price)
    decreases |ps| - lo
  {
    if lo < |ps| {
      AppendLogFromIsAppend(base, ps, lo + 1, price);
      var b := BuyResult(ps[lo], price).log;
      assert (base + LogFrom(ps, lo + 1, price)) + b == base + (LogFrom(ps, lo + 1, price) + b);
    }
  }

  /** The queue after the positions from index `lo` on have bought at `price`. */
  function TradedFrom(ps: seq<Position>, lo: nat, price: real): (qs: seq<Position>)
    requires price > 0.0 && StepsPositive(ps) && lo <= |ps|
    ensures |qs| == |ps|
  {
    seq(|ps|, j requires 0 <= j < |ps| => if j < lo then ps[j] else BuyResult(ps[j], price).position)
  }

  /** Nothing has traded yet when the range is empty. */
  lemma TradedFromNone(ps: seq<Position>, price: real)
    requires price > 0.0 && StepsPositive(ps)
    ensures TradedFrom(ps, |ps|, price) == ps
  {
  }

  /** Trading position `lo` extends the traded range one position down. */
  lemma TradedFromStep(ps: seq<Position>, lo: nat, price: real)
    requires price > 0.0 && StepsPositive(ps) && lo < |ps|
    ensures TradedFrom(ps, lo + 1, price)[lo := BuyResult(ps[lo], price).position] == TradedFrom(ps, lo, price)
  {
  }

  /**
   * The trade pass of `feed_price`: every position newer than the trade floor buys at `price`,
   * the newest first; the floor position and every older one is left alone.
   */
  function TradeDown(ps: seq<Position>, price: real): (t: Trade)
    requires price > 0.0 && StepsPositive(ps)
  {
    var lo := (TradeFloor(ps, price) + 1) as nat;
    Trade(TradedFrom(ps, lo, price), CashFrom(ps, lo, price), CoinsFrom(ps, lo, price), LogFrom(ps, lo, price))
  }

  /** The cash the positions from index `lo` on invest is what their log records, and >= 0. */
  lemma {:induction false} CashLoggedFrom(ps: seq<Position>, lo: nat, price: real)
    requires price > 0.0 && StepsPositive(ps) && lo <= |ps|
    ensures CashFrom(ps, lo, price) == LoggedCash(LogFrom(ps, lo, price))
    ensures CashFrom(ps, lo, price) >= 0.0
    decreases |ps| - lo
  {
    if lo < |ps| {
      var b := BuyResult(ps[lo], price);
      var rest := LogFrom(ps, lo + 1, price);
      assert CashFrom(ps, lo, price) == CashFrom(ps, lo + 1, price) + b.cashInvested;
      assert LogFrom(ps, lo, price) == rest + b.log;
      CashLoggedFrom(ps, lo + 1, price);
      BuyAccounts(ps[lo], price);
      LoggedCashAppend(rest, b.log);
    }
  }

  /** The coins the positions from index `lo` on buy are what their log records, and >= 0. */
  lemma {:induction false} CoinsLoggedFrom(ps: seq<Position>, lo: nat, price: real)
    requires price > 0.0 && StepsPositive(ps) && lo <= |ps|
    ensures CoinsFrom(ps, lo, price) == LoggedCoins(LogFrom(ps, lo, price))
    ensures CoinsFrom(ps, lo, price) >= 0.0
    decreases |ps| - lo
  {
    if lo < |ps| {
      var b := BuyResult(ps[lo], price);
      var rest := LogFrom(ps, lo + 1, price);
      assert CoinsFrom(ps, lo, price) == CoinsFrom(ps, lo + 1, price) + b.coinsInvested;
      assert LogFrom(ps, lo, price) == rest + b.log;
      CoinsLoggedFrom(ps, lo + 1, price);
      BuyAccounts(ps[lo], price);
      LoggedCoinsAppend(rest, b.log);
    }
  }

  /** The totals of a trade pass are what its log records, and both are non-negative. */
  lemma TradeDownAccounts(ps: seq<Position>, price: real)
    requires price > 0.0 && StepsPositive(ps)
    ensures var t := TradeDown(ps, price);
      && t.cash == LoggedCash(t.log) && t.coins == LoggedCoins(t.log)
      && t.cash >= 0.0 && t.coins >= 0.0
  {
    var lo := (TradeFloor(ps, price) + 1) as nat;
    var t := TradeDown(ps, price);
    assert t.cash == CashFrom(ps, lo, price) && t.coins == CoinsFrom(ps, lo, price);
    assert t.log == LogFrom(ps, lo, price);
    CashLoggedFrom(ps, lo, price);
    CoinsLoggedFrom(ps, lo, price);
  }

  /** A trade pass changes neither the expiry ticks nor the configuration of any position. */
  lemma TradeDownKeepsSchedule(ps: seq<Position>, price: real)
    requires price > 0.0 && StepsPositive(ps)
    ensures var t := TradeDown(ps, price);
      && |t.positions| == |ps|
      && forall j :: 0 <= j < |ps| ==>
        && t.positions[j].tickToExpire == ps[j].tickToExpire
        && t.positions[j].rebalanceCashRatio == ps[j].rebalanceCashRatio
        && t.positions[j].rebalanceStepPercentage == ps[j].rebalanceStepPercentage
  {
    forall j | 0 <= j < |ps| {
      BuyMovesLastPrice(ps[j], price);
    }
  }

  // ---------------------------------------------------------------------------------------
  // The steps of feed_price on the value state
  // ---------------------------------------------------------------------------------------

  /**
   * The expiry pass of the popping ladders: every expired position at the front is removed; the
   * cash it hands back goes to the reserve and to the returned total, and the last one removed
   * sets `lastAmmUninvested` to its cash minus the basic daily amount.
   */
  function PopExpiredState(s: LadderState): LadderState
  {
    var k := LeadingExpired(s.positions, s.tick);
    var handedBack := CashOf(s.positions[..k]);
    s.(positions := s.positions[k..],
       returnedCash := s.returnedCash + handedBack,
       finishedAmms := s.finishedAmms + k,
       cashReserve := s.cashReserve + handedBack,
       lastAmmUninvested := if k == 0 then s.lastAmmUninvested
                            else s.positions[k - 1].cash - BasicCashPerDay(s.amountRound))
  }

  /**
   * `amm_cash_today`'s bookkeeping: the reserve keeps what the basic amount does not cover
   * (it goes negative when more is funded), and the funded amount is recorded.
   */
  function Fund(s: LadderState, cashDay: real): LadderState
  {
    s.(cashReserve := s.cashReserve + (BasicCashPerDay(s.amountRound) - cashDay),
       ammPutCash := s.ammPutCash + [cashDay])
  }

  /** A new position funded with `cashDay`, created at `price` on the state's tick. */
  function NewPosition(cfg: Config, s: LadderState, price: real, cashDay: real): Position
  {
    Position(price, s.tick + cfg.horizon, cashDay, 0.0, cfg.cashRatio, cfg.step)
  }

  /**
   * The rest of `feed_price`: the new position joins the back of the queue, the trade pass runs
   * and its totals and log are added, and the tick advances with the last price recorded.
   */
  function PushAndTrade(cfg: Config, s: LadderState, price: real, cashDay: real): LadderState
    requires price > 0.0 && cfg.step > 0.0 && StepsPositive(s.positions)
  {
    var ps := s.positions + [NewPosition(cfg, s, price, cashDay)];
    assert StepsPositive(ps);
    var t := TradeDown(ps, price);
    s.(positions := t.positions,
       cashInvested := s.cashInvested + t.cash,
       coinsInvested := s.coinsInvested + t.coins,
       buyLogs := s.buyLogs + t.log,
       tick := s.tick + 1,
       lastPrice := price)
  }

  /** `PushAndTrade` in terms of what the trade pass over the extended queue returns. */
  lemma PushAndTradeIs(cfg: Config, s: LadderState, price: real, cashDay: real,
                       traded: seq<Position>, cash: real, coins: real, logs: BuyLogs)
    requires price > 0.0 && cfg.step > 0.0 && StepsPositive(s.positions)
    requires StepsPositive(s.positions + [NewPosition(cfg, s, price, cashDay)])
    requires var t := TradeDown(s.positions + [NewPosition(cfg, s, price, cashDay)], price);
      traded == t.positions && cash == t.cash && coins == t.coins && logs == s.buyLogs + t.log
    ensures PushAndTrade(cfg, s, price, cashDay) ==
      s.(positions := traded, cashInvested := s.cashInvested + cash, coinsInvested := s.coinsInvested + coins,
         buyLogs := logs, tick := s.tick + 1, lastPrice := price)
  {
  }

  /** The newest position always trades on the tick it is created, and the totals never fall. */
  lemma PushAndTradeInvests(cfg: Config, s: LadderState, price: real, cashDay: real)
    requires price > 0.0 && cfg.step > 0.0 && StepsPositive(s.positions)
    ensures var s' := PushAndTrade(cfg, s, price, cashDay);
      && |s'.positions| == |s.positions| + 1
      && s'.positions[|s.positions|] == BuyResult(NewPosition(cfg, s, price, cashDay), price).position
      && s'.cashInvested >= s.cashInvested && s'.coinsInvested >= s.coinsInvested
      && s'.cashInvested - s.cashInvested == LoggedCash(s'.buyLogs[|s.buyLogs|..])
      && s'.coinsInvested - s.coinsInvested == LoggedCoins(s'.buyLogs[|s.buyLogs|..])
  {
    var ps := s.positions + [NewPosition(cfg, s, price, cashDay)];
    assert StepsPositive(ps);
    TradeDownAccounts(ps, price);
    var t := TradeDown(ps, price);
    assert (s.buyLogs + t.log)[|s.buyLogs|..] == t.log;
  }

  /** The newest position is the last of the queue and has traded at `price`. */
  lemma PushAndTradeNewest(cfg: Config, s: LadderState, price: real, cashDay: real)
    requires price > 0.0 && cfg.step > 0.0 && StepsPositive(s.positions)
    ensures var s' := PushAndTrade(cfg, s, price, cashDay);
      && |s'.positions| == |s.positions| + 1
      && s'.positions[|s.positions|] == BuyResult(NewPosition(cfg, s, price, cashDay), price).position
  {
    PushAndTradeInvests(cfg, s, price, cashDay);
  }

  /**
   * With positive funding and a cash ratio below 1, the newest position spends the share
   * 1 - cashRatio of its cash at `price` and its last price moves one step down.
   */
  lemma PushAndTradeNewestBuys(cfg: Config, s: LadderState, price: real, cashDay: real)
    requires price > 0.0 && cfg.step > 0.0 && StepsPositive(s.positions)
    requires cashDay > 0.0 && cfg.cashRatio < 1.0
    ensures var s' := PushAndTrade(cfg, s, price, cashDay);
      && |s'.positions| == |s.positions| + 1
      && s'.positions[|s.positions|] ==
         Position(StepDown(cfg.step, price), s.tick + cfg.horizon, cashDay * cfg.cashRatio,
                  cashDay * (1.0 - cfg.cashRatio) / price, cfg.cashRatio, cfg.step)
  {
    PushAndTradeNewest(cfg, s, price, cashDay);
    NewPositionFirstTrade(cashDay, price, s.tick + cfg.horizon, cfg.cashRatio, cfg.step);
  }

  // ---------------------------------------------------------------------------------------
  // The popping ladders' invariant
  // ---------------------------------------------------------------------------------------

  /**
   * The number of ticks a position stays in a popping queue: it is created after its tick's
   * expiry pass, so even with a horizon of 0 it is only removed on the next tick.
   */
  function Lag(horizon: nat): (l: nat)
    ensures l >= 1 && l >= horizon
  {
    if horizon == 0 then 1 else horizon
  }

  /** Position `p` was created on tick `created` by a ladder with configuration `cfg`. */
  predicate Scheduled(cfg: Config, p: Position, created: nat)
  {
    p.tickToExpire == created + cfg.horizon
    && p.rebalanceCashRatio == cfg.cashRatio
    && p.rebalanceStepPercentage == cfg.step
  }

  /**
   * Between two calls of `feed_price` a popping ladder has funded one position per tick, has
   * retired the oldest ones exactly as their lag ran out, and holds the others in creation order.
   */
  predicate PoppingWf(cfg: Config, s: LadderState)
  {
    && ConfigOk(cfg)
    && |s.ammPutCash| == s.tick
    && s.finishedAmms == (if s.tick >= Lag(cfg.horizon) then s.tick - Lag(cfg.horizon) else 0)
    && |s.positions| == s.tick - s.finishedAmms
    && (forall j :: 0 <= j < |s.positions| ==> Scheduled(cfg, s.positions[j], s.finishedAmms + j))
    && s.cashInvested >= 0.0 && s.coinsInvested >= 0.0
  }

  lemma PoppingInitial(cfg: Config)
    requires ConfigOk(cfg)
    ensures PoppingWf(cfg, Initial)
  {
  }

  /** Under the invariant, the expiry pass retires exactly one position once the lag has passed. */
  lemma PopsOneOnceLagged(cfg: Config, s: LadderState)
    requires PoppingWf(cfg, s)
    ensures LeadingExpired(s.positions, s.tick) == if s.tick >= Lag(cfg.horizon) then 1 else 0
  {
    var k := LeadingExpired(s.positions, s.tick);
    if s.tick >= Lag(cfg.horizon) {
      assert Scheduled(cfg, s.positions[0], s.finishedAmms);
      if 1 < |s.positions| {
        assert Scheduled(cfg, s.positions[1], s.finishedAmms + 1);
      }
    } else if 0 < |s.positions| {
      assert Scheduled(cfg, s.positions[0], s.finishedAmms);
    }
  }

  /** After the expiry pass at tick t the retired count is t - horizon + 1, once t >= horizon. */
  lemma PoppedCount(cfg: Config, s: LadderState)
    requires PoppingWf(cfg, s) && cfg.horizon >= 1
    ensures var s1 := PopExpiredState(s);
      s1.finishedAmms == if s.tick >= cfg.horizon then s.tick - cfg.horizon + 1 else 0
  {
    PopsOneOnceLagged(cfg, s);
  }

  /** The expiry pass and the funding of a popping ladder, on a state with the invariant. */
  lemma PopFundStep(cfg: Config, s: LadderState, cashDay: real)
    requires PoppingWf(cfg, s)
    ensures var s1 := Fund(PopExpiredState(s), cashDay);
      && s1.tick == s.tick && |s1.ammPutCash| == s.tick + 1
      && s1.finishedAmms == (if s.tick >= Lag(cfg.horizon) then s.tick + 1 - Lag(cfg.horizon) else 0)
      && |s1.positions| == s.tick - s1.finishedAmms
      && (forall j :: 0 <= j < |s1.positions| ==> Scheduled(cfg, s1.positions[j], s1.finishedAmms + j))
      && s1.cashInvested == s.cashInvested && s1.coinsInvested == s.coinsInvested
  {
    PopsOneOnceLagged(cfg, s);
    var k := LeadingExpired(s.positions, s.tick);
    var s1 := Fund(PopExpiredState(s), cashDay);
    assert s1.positions == s.positions[k..];
    forall j | 0 <= j < |s1.positions|
      ensures Scheduled(cfg, s1.positions[j], s1.finishedAmms + j)
    {
      assert s1.positions[j] == s.positions[k + j];
      assert Scheduled(cfg, s.positions[k + j], s.finishedAmms + (k + j));
    }
  }

  /** Removing nothing, a trade pass passes the creation schedule of the queue on unchanged. */
  lemma TradeDownScheduled(cfg: Config, ps: seq<Position>, price: real, first: nat)
    requires price > 0.0 && StepsPositive(ps)
    requires forall j :: 0 <= j < |ps| ==> Scheduled(cfg, ps[j], first + j)
    ensures var t := TradeDown(ps, price);
      |t.positions| == |ps| && forall j :: 0 <= j < |t.positions| ==> Scheduled(cfg, t.positions[j], first + j)
  {
    TradeDownKeepsSchedule(ps, price);
    var t := TradeDown(ps, price);
    forall j | 0 <= j < |t.positions|
      ensures Scheduled(cfg, t.positions[j], first + j)
    {
      assert Scheduled(cfg, ps[j], first + j);
    }
  }

  /** The push and the trade pass keep the schedule, advance the tick and never lower the totals. */
  lemma PushAndTradeStep(cfg: Config, s: LadderState, price: real, cashDay: real, first: nat)
    requires price > 0.0 && cfg.step > 0.0 && StepsPositive(s.positions)
    requires forall j :: 0 <= j < |s.positions| ==> Scheduled(cfg, s.positions[j], first + j)
    requires first + |s.positions| == s.tick
    ensures var s' := PushAndTrade(cfg, s, price, cashDay);
      && s'.tick == s.tick + 1 && s'.ammPutCash == s.ammPutCash && s'.finishedAmms == s.finishedAmms
      && |s'.positions| == |s.positions| + 1
      && (forall j :: 0 <= j < |s'.positions| ==> Scheduled(cfg, s'.positions[j], first + j))
      && s'.cashInvested >= s.cashInvested && s'.coinsInvested >= s.coinsInvested
  {
    var ps := s.positions + [NewPosition(cfg, s, price, cashDay)];
    assert forall j :: 0 <= j < |ps| ==> Scheduled(cfg, ps[j], first + j) by {
      forall j | 0 <= j < |ps|
        ensures Scheduled(cfg, ps[j], first + j)
      {
        if j < |s.positions| {
          assert ps[j] == s.positions[j];
        }
      }
    }
    TradeDownScheduled(cfg, ps, price, first);
    PushAndTradeInvests(cfg, s, price, cashDay);
  }

  /** The positions left after the expiry pass all have the ladder's positive step. */
  lemma PopFundStepsPositive(cfg: Config, s: LadderState, cashDay: real)
    requires PoppingWf(cfg, s)
    ensures StepsPositive(Fund(PopExpiredState(s), cashDay).positions)
  {
    var s1 := Fund(PopExpiredState(s), cashDay);
    PopFundStep(cfg, s, cashDay);
    forall j | 0 <= j < |s1.positions|
      ensures s1.positions[j].rebalanceStepPercentage > 0.0
    {
      assert Scheduled(cfg, s1.positions[j], s1.finishedAmms + j);
    }
  }

  /** Every tick of a popping ladder, whatever it funds, keeps the invariant. */
  lemma PoppingStepWf(cfg: Config, s: LadderState, price: real, cashDay: real)
    requires PoppingWf(cfg, s) && price > 0.0
    ensures var s1 := Fund(PopExpiredState(s), cashDay);
      StepsPositive(s1.positions) && PoppingWf(cfg, PushAndTrade(cfg, s1, price, cashDay))
  {
    var s1 := Fund(PopExpiredState(s), cashDay);
    PopFundStep(cfg, s, cashDay);
    PopFundStepsPositive(cfg, s, cashDay);
    PushAndTradeStep(cfg, s1, price, cashDay, s1.finishedAmms);
  }

  // ---------------------------------------------------------------------------------------
  // Loops shared by the allocators
  // ---------------------------------------------------------------------------------------

  /**
   * The popping expiry loop: checks the front position, and while it has expired, collects the
   * cash it hands back and removes it. Returns the remaining queue, the cash handed back, the
   * number removed and the cash of the last one removed.
   */
  method PopExpired(amms: seq<Position>, tick: nat)
    returns (rest: seq<Position>, handedBack: real, count: nat, lastCash: Option<real>)
    ensures count == LeadingExpired(amms, tick)
    ensures rest == amms[count..]
    ensures handedBack == CashOf(amms[..count])
    ensures lastCash == if count == 0 then None else Some(amms[count - 1].cash)
  {
    rest, handedBack, count, lastCash := amms, 0.0, 0, None;
    while rest != []
      invariant count <= |amms| && rest == amms[count..]
      invariant forall j :: 0 <= j < count ==> amms[j].tickToExpire <= tick
      invariant handedBack == CashOf(amms[..count])
      invariant lastCash == if count == 0 then None else Some(amms[count - 1].cash)
      decreases |rest|
    {
      var e := ExpirationResult(rest[0], tick);
      if !e.expired {
        break;
      }
      CashOfPrefixStep(amms, count);
      handedBack := handedBack + e.cash;
      lastCash := Some(e.cash);
      count := count + 1;
      rest := rest[1..];
    }
  }

  /**
   * The trade loop of `feed_price`: from the newest position to the oldest, stopping at the
   * first whose last price is below `price`; the others buy. Returns the queue afterwards, the
   * totals invested and the log with the purchases appended.
   */
  method TradePass(amms: seq<Position>, price: real, buyLogs: BuyLogs)
    returns (traded: seq<Position>, cashInvested: real, coinsInvested: real, logs: BuyLogs)
    requires price > 0.0 && StepsPositive(amms)
    ensures var t := TradeDown(amms, price);
      traded == t.positions && cashInvested == t.cash && coinsInvested == t.coins
      && logs == buyLogs + t.log
  {
    traded, cashInvested, coinsInvested, logs := amms, 0.0, 0.0, buyLogs;
    var i := |amms|;
    TradedFromNone(amms, price);
    ghost var lo := 0;
    while i > 0
      invariant 0 <= i <= |amms| && lo == 0
      invariant forall j :: i <= j < |amms| ==> amms[j].lastPrice >= price
      invariant traded == TradedFrom(amms, i, price)
      invariant cashInvested == CashFrom(amms, i, price) && coinsInvested == CoinsFrom(amms, i, price)
      invariant logs == AppendLogFrom(buyLogs, amms, i, price)
    {
      i := i - 1;
      if amms[i].lastPrice < price {
        lo := i + 1;
        break;
      }
      var position, cash, coins;
      position, cash, coins, logs := BuyPosition(amms[i], price, logs);
      TradedFromStep(amms, i, price);
      traded := traded[i := position];
      cashInvested := cashInvested + cash;
      coinsInvested := coinsInvested + coins;
    }
    TradeFloorAt(amms, price, lo);
    AppendLogFromIsAppend(buyLogs, amms, lo, price);
  }

  /** `cash_unused`: the reserve plus the cash still held by every live position. */
  method CashUnusedOf(cashReserve: real, amms: seq<Position>) returns (unused: real)
    ensures unused == cashReserve + CashOf(amms)
  {
    unused := cashReserve;
    var i := 0;
    while i < |amms|
      invariant 0 <= i <= |amms|
      invariant unused == cashReserve + CashOf(amms[..i])
    {
      CashOfPrefixStep(amms, i);
      unused := unused + amms[i].cash;
      i := i + 1;
    }
    assert amms[..i] == amms;
  }

  // ---------------------------------------------------------------------------------------
  // past_amm_cash_utilization
  // ---------------------------------------------------------------------------------------

  /**
   * What `past_amm_cash_utilization` yields: the sentinel (0, 0, 0, NaN) while no position can
   * have finished, a panic (a failed assertion or an index out of bounds), or the cash put into
   * the finished positions, the part of it they invested, the average per finished position and
   * the over-investment factor, which is absent where the source divides by zero.
   */
  datatype Utilization =
    | NotYet
    | Failed
    | Measured(cashPut: real, cashInvested: real, averageInvested: real, overInvestFactor: Option<real>)

  /**
   * The measurement over `count` finished positions that were put `cashPut`: the finished
   * positions invested what they did not hand back, and the factor is the invested cash relative
   * to the share 1 - cashRatio of the cash put that a position is expected to invest.
   */
  function Measure(cfg: Config, s: LadderState, cashPut: real, count: nat): (u: Utilization)
    requires count > 0
    ensures u.Measured? && u.cashPut == cashPut && u.cashInvested == cashPut - s.returnedCash
    ensures u.averageInvested * (count as real) == u.cashInvested
    ensures u.overInvestFactor.Some? <==> cashPut != 0.0 && cfg.cashRatio != 1.0
    ensures u.overInvestFactor.Some? ==>
      u.overInvestFactor.value * (cashPut * (1.0 - cfg.cashRatio)) == u.cashInvested
  {
    var invested := cashPut - s.returnedCash;
    var factor := if cashPut == 0.0 || cfg.cashRatio == 1.0 then None
                  else Some(invested / cashPut / (1.0 - cfg.cashRatio));
    if factor.Some? then
      FactorScales(invested, cashPut, 1.0 - cfg.cashRatio);
      Measured(cashPut, invested, invested / count as real, factor)
    else
      Measured(cashPut, invested, invested / count as real, factor)
  }

  lemma FactorScales(a: real, b: real, c: real)
    requires b != 0.0 && c != 0.0
    ensures (a / b / c) * (b * c) == a
  {
    assert (a / b / c) * c == a / b;
    assert (a / b) * b == a;
  }

  /** The accumulation loop of `past_amm_cash_utilization`: the first `n` amounts, added in order. */
  method SumFirst(xs: seq<real>, n: nat) returns (total: real)
    requires n <= |xs|
    ensures total == Sum(xs[..n])
  {
    total := 0.0;
    var i := 0;
    while i < n
      invariant 0 <= i <= n && total == Sum(xs[..i])
    {
      SumPrefixStep(xs, i);
      total := total + xs[i];
      i := i + 1;
    }
  }
}
