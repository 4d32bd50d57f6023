/**
 * The cost-averaging driver and the two baseline allocators.
 *
 * Every allocator answers the same four calls: `set_supply`, `start_new_round`, `feed_price`
 * and `get_invest_status`. The driver `dollar_cost_average` gives an allocator the budget of a
 * round, starts a round every DAYS_PER_ROUND ticks, feeds it one price per tick of the bear
 * market and reads its totals. The model writes the calls the driver makes as a sequence of
 * `Call` values (`DriverCalls`) and runs an allocator's value state through that sequence
 * (`Run`); the driver method is proved to leave the allocator in the state `Run` predicts.
 */
module CostAverage {
  import opened Common
  import opened Ladder
  import Tests
  import AmmCostAverage
  import opened AmmCostAverageAuto

  /** One call of the allocators' common interface. */
  datatype Call = SetSupply(amount: real) | StartNewRound(ticks: nat) | FeedPrice(price: real) | GetInvestStatus

  // ---------------------------------------------------------------------------------------
  // The two baselines
  // ---------------------------------------------------------------------------------------

  /** The lump-sum allocator: `tick` is 0 from the start of a round until its first feed, then -1. */
  datatype DcaState = DcaState(amountRound: real, totalCash: real, totalCoins: real, tick: int)

  /** `DollarCostAverage`: the whole budget is spent at the first price of each round. */
  function DcaStep(s: DcaState, c: Call): DcaState
    requires c.FeedPrice? && s.tick == 0 ==> c.price != 0.0
  {
    match c
    case SetSupply(amount) => s.(amountRound := amount)
    case StartNewRound(_) => s.(tick := 0)
    case FeedPrice(price) =>
      if s.tick == 0 then
        s.(totalCash := s.totalCash + s.amountRound, totalCoins := s.totalCoins + s.amountRound / price, tick := -1)
      else s
    case GetInvestStatus => s
  }

  /** The daily allocator: `ticks` is the length of the current round, 0 before the first. */
  datatype DailyState = DailyState(amountRound: real, totalCash: real, totalCoins: real, ticks: real)

  /** `DailyDollarCostAverage`: the budget is spread evenly over the ticks of the round. */
  function DailyStep(s: DailyState, c: Call): DailyState
    requires c.FeedPrice? ==> c.price != 0.0 && s.ticks != 0.0
  {
    match c
    case SetSupply(amount) => s.(amountRound := amount)
    case StartNewRound(ticks) => s.(ticks := ticks as real)
    case FeedPrice(price) =>
      s.(totalCash := s.totalCash + s.amountRound / s.ticks,
         totalCoins := s.totalCoins + s.amountRound / s.ticks / price)
    case GetInvestStatus => s
  }

  class DollarCostAverage {
    var amountRound: real
    var totalCash: real
    var totalCoins: real
    var tick: int

    function State(): DcaState
      reads this
    {
      DcaState(amountRound, totalCash, totalCoins, tick)
    }

    /** The derived default: all zero, so a feed before any round already invests. */
    constructor ()
      ensures State() == DcaState(0.0, 0.0, 0.0, 0)
    {
      amountRound, totalCash, totalCoins, tick := 0.0, 0.0, 0.0, 0;
    }

    method SetSupply(amount: real)
      modifies this
      ensures State() == DcaStep(old(State()), Call.SetSupply(amount))
    {
      amountRound := amount;
    }

    method StartNewRound(ticks: nat)
      modifies this
      ensures State() == DcaStep(old(State()), Call.StartNewRound(ticks))
    {
      tick := 0;
    }

    /** Only an armed feed divides by the price; an unarmed one changes nothing. */
    method FeedPrice(price: real)
      requires tick == 0 ==> price != 0.0
      modifies this
      ensures State() == DcaStep(old(State()), Call.FeedPrice(price))
    {
      if tick == 0 {
        totalCash := totalCash + amountRound;
        totalCoins := totalCoins + amountRound / price;
        tick := -1;
      }
    }

    method GetInvestStatus() returns (cash: real, coins: real)
      ensures cash == totalCash && coins == totalCoins
    {
      cash, coins := totalCash, totalCoins;
    }
  }

  class DailyDollarCostAverage {
    var amountRound: real
    var totalCash: real
    var totalCoins: real
    var ticks: real

    function State(): DailyState
      reads this
    {
      DailyState(amountRound, totalCash, totalCoins, ticks)
    }

    /** The derived default: all zero; a feed needs a round to have been started. */
    constructor ()
      ensures State() == DailyState(0.0, 0.0, 0.0, 0.0)
    {
      amountRound, totalCash, totalCoins, ticks := 0.0, 0.0, 0.0, 0.0;
    }

    method SetSupply(amount: real)
      modifies this
      ensures State() == DailyStep(old(State()), Call.SetSupply(amount))
    {
      amountRound := amount;
    }

    method StartNewRound(ticks: nat)
      modifies this
      ensures State() == DailyStep(old(State()), Call.StartNewRound(ticks))
    {
      this.ticks := ticks as real;
    }

    method FeedPrice(price: real)
      requires price != 0.0 && ticks != 0.0
      modifies this
      ensures State() == DailyStep(old(State()), Call.FeedPrice(price))
    {
      totalCash := totalCash + amountRound / ticks;
      totalCoins := totalCoins + amountRound / ticks / price;
    }

    method GetInvestStatus() returns (cash: real, coins: real)
      ensures cash == totalCash && coins == totalCoins
    {
      cash, coins := totalCash, totalCoins;
    }
  }

  // ---------------------------------------------------------------------------------------
  // Any allocator, as a value
  // ---------------------------------------------------------------------------------------

  /** Which allocator answers the calls, with its constant settings. */
  datatype Kind =
    | DcaKind
    | DailyKind
    | FixedKind(cfg: Config)
    | ImaginaryKind(cfg: Config)
    | AutoKind(cfg: Config, pct: real)

  datatype AllocState = DcaAt(dca: DcaState) | DailyAt(daily: DailyState) | LadderAt(ladder: LadderState)

  /** The state has the allocator's shape and, for a ladder, keeps the ladder's invariant. */
  predicate StateOk(k: Kind, st: AllocState)
  {
    match k
    case DcaKind => st.DcaAt?
    case DailyKind => st.DailyAt?
    case FixedKind(cfg) => st.LadderAt? && PoppingWf(cfg, st.ladder)
    case ImaginaryKind(cfg) => st.LadderAt? && AmmCostAverage.ImaginaryWf(cfg, st.ladder)
    case AutoKind(cfg, _) => st.LadderAt? && PoppingWf(cfg, st.ladder)
  }

  /** What `get_invest_status` reports: (invested cash, invested coins). */
  function Totals(st: AllocState): (real, real)
  {
    match st
    case DcaAt(s) => (s.totalCash, s.totalCoins)
    case DailyAt(s) => (s.totalCash, s.totalCoins)
    case LadderAt(s) => (s.cashInvested, s.coinsInvested)
  }

  /** The calls that do not trade on a ladder: only `set_supply` changes anything. */
  function LadderBookkeeping(s: LadderState, c: Call): LadderState
  {
    if c.SetSupply? then s.(amountRound := c.amount, cashReserve := 0.0) else s
  }

  /** `DollarCostAverage` answering one call; only an armed feed divides by the price. */
  function DcaCall(s: DcaState, c: Call): Option<AllocState>
  {
    if c.FeedPrice? && s.tick == 0 && c.price == 0.0 then None else Some(DcaAt(DcaStep(s, c)))
  }

  /** `DailyDollarCostAverage` answering one call; a feed divides by the round length and the price. */
  function DailyCall(s: DailyState, c: Call): Option<AllocState>
  {
    if c.FeedPrice? && (c.price == 0.0 || s.ticks == 0.0) then None else Some(DailyAt(DailyStep(s, c)))
  }

  /** The popping ladder with fixed funding answering one call. */
  function FixedCall(cfg: Config, s: LadderState, c: Call): (r: Option<LadderState>)
    requires PoppingWf(cfg, s)
    ensures r.Some? ==> PoppingWf(cfg, r.value)
    ensures r.Some? && !c.FeedPrice? ==> r.value.cashInvested == s.cashInvested && r.value.coinsInvested == s.coinsInvested
  {
    if c.FeedPrice? then
      if c.price <= 0.0 then None
      else
        Tests.FixedFeedFunds(cfg, s, c.price);
        Some(Tests.FixedFeed(cfg, s, c.price))
    else if c.StartNewRound? && c.ticks != DAYS_PER_ROUND then None
    else Some(LadderBookkeeping(s, c))
  }

  /** The imaginary ladder answering one call. */
  function ImaginaryCall(cfg: Config, s: LadderState, c: Call): (r: Option<LadderState>)
    requires AmmCostAverage.ImaginaryWf(cfg, s)
    ensures r.Some? ==> AmmCostAverage.ImaginaryWf(cfg, r.value)
    ensures r.Some? && !c.FeedPrice? ==> r.value.cashInvested == s.cashInvested && r.value.coinsInvested == s.coinsInvested
  {
    if c.FeedPrice? then
      if c.price <= 0.0 then None
      else
        AmmCostAverage.ImaginaryFeedFunds(cfg, s, c.price);
        Some(AmmCostAverage.ImaginaryFeed(cfg, s, c.price))
    else if c.StartNewRound? && c.ticks != DAYS_PER_ROUND then None
    else Some(LadderBookkeeping(s, c))
  }

  /**
   * The self-correcting ladder answering one call: `start_new_round` and `get_invest_status`
   * stop where its utilization assertion fails, a feed stops where the funding is not a number.
   */
  function AutoCall(cfg: Config, pct: real, s: LadderState, c: Call): (r: Option<LadderState>)
    requires PoppingWf(cfg, s)
    ensures r.Some? ==> PoppingWf(cfg, r.value)
    ensures r.Some? && !c.FeedPrice? ==> r.value.cashInvested == s.cashInvested && r.value.coinsInvested == s.coinsInvested
  {
    if c.FeedPrice? then
      if c.price <= 0.0 || !AutoFunding(cfg, pct, PopExpiredState(s)).Funded? then None
      else
        AutoFeedFunds(cfg, pct, s, c.price);
        Some(AutoFeed(cfg, pct, s, c.price))
    else if (c.StartNewRound? || c.GetInvestStatus?) && AutoUtilization(cfg, s).Failed? then None
    else if c.StartNewRound? && c.ticks != DAYS_PER_ROUND then None
    else Some(LadderBookkeeping(s, c))
  }

  function Lift(r: Option<LadderState>): Option<AllocState>
  {
    if r.None? then None else Some(LadderAt(r.value))
  }

  /**
   * One call. `None` means the program stops there: one of its assertions fails, or the call
   * leaves what the model covers (a ladder fed a price that is not positive, a baseline dividing
   * by a zero price or round length, funding that is not a finite number).
   */
  function Step(k: Kind, st: AllocState, c: Call): Option<AllocState>
  {
    if !StateOk(k, st) then None
    else match k
      case DcaKind => DcaCall(st.dca, c)
      case DailyKind => DailyCall(st.daily, c)
      case FixedKind(cfg) => Lift(FixedCall(cfg, st.ladder, c))
      case ImaginaryKind(cfg) => Lift(ImaginaryCall(cfg, st.ladder, c))
      case AutoKind(cfg, pct) => Lift(AutoCall(cfg, pct, st.ladder, c))
  }

  /**
   * A feed to a lump-sum allocator that is not armed goes through at any price, zero and negative
   * prices included, and changes nothing; an armed one stops only on a zero price.
   */
  lemma DcaFeedStops(s: DcaState, p: real)
    ensures s.tick != 0 ==> Step(DcaKind, DcaAt(s), FeedPrice(p)) == Some(DcaAt(s))
    ensures Step(DcaKind, DcaAt(s), FeedPrice(p)).None? <==> s.tick == 0 && p == 0.0
  {
  }

  /** A call that goes through keeps the state's invariant; only a feed changes the totals. */
  lemma StepKeeps(k: Kind, st: AllocState, c: Call)
    ensures Step(k, st, c).Some? ==> StateOk(k, Step(k, st, c).value)
    ensures Step(k, st, c).Some? && !c.FeedPrice? ==> Totals(Step(k, st, c).value) == Totals(st)
  {
  }

  /** What one call does to a state; `None` where the program stops. */
  type Stepper = (AllocState, Call) -> Option<AllocState>

  /** The allocator of kind `k` answering one call. */
  function StepOf(k: Kind): Stepper
  {
    (st: AllocState, c: Call) => Step(k, st, c)
  }

  /** `f` answers every call as the allocator of kind `k` does. */
  ghost predicate Implements(f: Stepper, k: Kind)
  {
    forall st: AllocState, c: Call {:trigger Step(k, st, c)} :: f(st, c) == Step(k, st, c)
  }

  lemma StepOfImplements(k: Kind)
    ensures Implements(StepOf(k), k)
  {
  }

  /** The first n calls, one after the other; the run stops at the first call that stops. */
  function RunUpTo(f: Stepper, st: AllocState, calls: seq<Call>, n: nat): Option<AllocState>
    requires n <= |calls|
  {
    if n == 0 then Some(st)
    else
      var before := RunUpTo(f, st, calls, n - 1);
      if before.None? then None else f(before.value, calls[n - 1])
  }

  /** A sequence of calls, one after the other. */
  function RunBy(f: Stepper, st: AllocState, calls: seq<Call>): Option<AllocState>
  {
    RunUpTo(f, st, calls, |calls|)
  }

  /** The allocator of kind `k` answering a sequence of calls. */
  function Run(k: Kind, st: AllocState, calls: seq<Call>): Option<AllocState>
  {
    RunBy(StepOf(k), st, calls)
  }

  /** A run of at least one call that goes through ends in a state that keeps the invariant. */
  lemma RunKeeps(k: Kind, st: AllocState, calls: seq<Call>)
    requires calls != []
    ensures Run(k, st, calls).Some? ==> StateOk(k, Run(k, st, calls).value)
  {
    var before := RunUpTo(StepOf(k), st, calls, |calls| - 1);
    if before.Some? {
      StepKeeps(k, before.value, calls[|calls| - 1]);
    }
  }

  /** Continues a run that may already have stopped. */
  function ThenBy(f: Stepper, r: Option<AllocState>, calls: seq<Call>): Option<AllocState>
  {
    if r.None? then None else RunBy(f, r.value, calls)
  }

  function Then(k: Kind, r: Option<AllocState>, calls: seq<Call>): Option<AllocState>
  {
    ThenBy(StepOf(k), r, calls)
  }

  lemma RunSingle(f: Stepper, st: AllocState, c: Call)
    ensures RunBy(f, st, [c]) == f(st, c)
  {
    assert RunUpTo(f, st, [c], 0) == Some(st);
  }

  /** The first n calls of a + b, for n within a, are the first n calls of a. */
  lemma {:induction false} RunUpToPrefix(f: Stepper, st: AllocState, a: seq<Call>, b: seq<Call>, n: nat)
    requires n <= |a|
    ensures RunUpTo(f, st, a + b, n) == RunUpTo(f, st, a, n)
  {
    if n > 0 {
      RunUpToPrefix(f, st, a, b, n - 1);
      assert (a + b)[n - 1] == a[n - 1];
    }
  }

  /** Running a, then the first j calls of b. */
  lemma {:induction false} RunUpToSuffix(f: Stepper, st: AllocState, a: seq<Call>, b: seq<Call>, j: nat)
    requires j <= |b|
    ensures var r := RunBy(f, st, a);
      RunUpTo(f, st, a + b, |a| + j) == if r.None? then None else RunUpTo(f, r.value, b, j)
  {
    if j == 0 {
      RunUpToPrefix(f, st, a, b, |a|);
    } else {
      RunUpToSuffix(f, st, a, b, j - 1);
      assert (a + b)[|a| + j - 1] == b[j - 1];
    }
  }

  /** Running two sequences of calls is running their concatenation. */
  lemma RunAppend(f: Stepper, st: AllocState, a: seq<Call>, b: seq<Call>)
    ensures RunBy(f, st, a + b) == ThenBy(f, RunBy(f, st, a), b)
  {
    RunUpToSuffix(f, st, a, b, |b|);
  }

  // ---------------------------------------------------------------------------------------
  // The calls the driver makes
  // ---------------------------------------------------------------------------------------

  /** At the lowest day the totals are read before anything else happens on that tick. */
  function SnapshotCalls(index: nat, lowest: nat): seq<Call>
  {
    if index == lowest then [GetInvestStatus] else []
  }

  /** `round_ticks` is 0 on the first tick of the bear market and every DAYS_PER_ROUND ticks after. */
  function RoundCalls(bearStart: nat, index: nat): seq<Call>
    requires bearStart <= index
  {
    if FirstOfRound(index - bearStart) then [StartNewRound(DAYS_PER_ROUND)] else []
  }

  /** The calls of one day: the optional snapshot read, the optional round start, then the price. */
  function Schedule(snapshot: bool, startsRound: bool, price: real): seq<Call>
  {
    if snapshot && startsRound then [GetInvestStatus, StartNewRound(DAYS_PER_ROUND), FeedPrice(price)]
    else if snapshot then [GetInvestStatus, FeedPrice(price)]
    else if startsRound then [StartNewRound(DAYS_PER_ROUND), FeedPrice(price)]
    else [FeedPrice(price)]
  }

  /** One iteration of the driver's loop. */
  function DayCalls(rows: seq<Row>, bearStart: nat, lowest: nat, index: nat): seq<Call>
    requires bearStart <= index < |rows|
  {
    Schedule(index == lowest, FirstOfRound(index - bearStart), rows[index].price)
  }

  /** A day's calls are its snapshot read, then its round start, then its price. */
  lemma DayCallsParts(rows: seq<Row>, bearStart: nat, lowest: nat, index: nat)
    requires bearStart <= index < |rows|
    ensures DayCalls(rows, bearStart, lowest, index) ==
            SnapshotCalls(index, lowest) + RoundCalls(bearStart, index) + [FeedPrice(rows[index].price)]
  {
  }

  /** The iterations for the days from..end-1 of a bear market that starts at bearStart. */
  function TickCalls(rows: seq<Row>, bearStart: nat, lowest: nat, from: nat, end: nat): seq<Call>
    requires bearStart <= from <= end && (from < end ==> end <= |rows|)
    decreases end - from
  {
    if end == from then [] else TickCalls(rows, bearStart, lowest, from, end - 1) + DayCalls(rows, bearStart, lowest, end - 1)
  }

  /** The calls made before the loop reaches day `index`. */
  function CallsBefore(rows: seq<Row>, bearStart: nat, lowest: nat, index: nat): seq<Call>
    requires bearStart <= index && (bearStart < index ==> index <= |rows|)
  {
    [SetSupply(DOLLAR_COST_AVERAGE_SUPPLY.0)] + TickCalls(rows, bearStart, lowest, bearStart, index)
  }

  /** The state the allocator reaches before the loop feeds day `index`, day by day. */
  function Reached(f: Stepper, st: AllocState, rows: seq<Row>, bearStart: nat, lowest: nat, index: nat): Option<AllocState>
    requires bearStart <= index && (bearStart < index ==> index <= |rows|)
    decreases index - bearStart
  {
    if index == bearStart then f(st, SetSupply(DOLLAR_COST_AVERAGE_SUPPLY.0))
    else ThenBy(f, Reached(f, st, rows, bearStart, lowest, index - 1), DayCalls(rows, bearStart, lowest, index - 1))
  }

  /** Every call `dollar_cost_average` makes, in order. */
  function DriverCalls(rows: seq<Row>, bearStart: nat, bullStart: nat, lowest: nat): seq<Call>
    requires bullStart <= |rows|
  {
    var ticks := if bearStart < bullStart then TickCalls(rows, bearStart, lowest, bearStart, bullStart) else [];
    [SetSupply(DOLLAR_COST_AVERAGE_SUPPLY.0)] + ticks + [GetInvestStatus]
  }

  lemma {:induction false} TickCallsSplit(rows: seq<Row>, bearStart: nat, lowest: nat, from: nat, mid: nat, end: nat)
    requires bearStart <= from <= mid <= end <= |rows|
    ensures TickCalls(rows, bearStart, lowest, from, end) ==
            TickCalls(rows, bearStart, lowest, from, mid) + TickCalls(rows, bearStart, lowest, mid, end)
    decreases end - mid
  {
    var front := TickCalls(rows, bearStart, lowest, from, mid);
    if end == mid {
      assert front + [] == front;
    } else {
      TickCallsSplit(rows, bearStart, lowest, from, mid, end - 1);
      var day := DayCalls(rows, bearStart, lowest, end - 1);
      var back := TickCalls(rows, bearStart, lowest, mid, end - 1);
      assert TickCalls(rows, bearStart, lowest, mid, end) == back + day;
      ConcatAssoc(front, back, day);
    }
  }

  lemma ConcatAssoc(a: seq<Call>, b: seq<Call>, c: seq<Call>)
    ensures a + (b + c) == (a + b) + c
  {
  }

  /** The prices of rows lo..hi-1, in order. */
  function Prices(rows: seq<Row>, lo: nat, hi: nat): (r: seq<real>)
    requires lo <= hi <= |rows|
    ensures |r| == hi - lo && forall j :: 0 <= j < hi - lo ==> r[j] == rows[lo + j].price
    decreases hi - lo
  {
    if hi == lo then [] else Prices(rows, lo, hi - 1) + [rows[hi - 1].price]
  }

  /** The prices fed by the first n calls, in order. */
  function FeedsUpTo(calls: seq<Call>, n: nat): seq<real>
    requires n <= |calls|
  {
    if n == 0 then [] else FeedsUpTo(calls, n - 1) + (if calls[n - 1].FeedPrice? then [calls[n - 1].price] else [])
  }

  /** The prices an allocator is fed, in order. */
  function Feeds(calls: seq<Call>): seq<real>
  {
    FeedsUpTo(calls, |calls|)
  }

  lemma {:induction false} FeedsUpToPrefix(a: seq<Call>, b: seq<Call>, n: nat)
    requires n <= |a|
    ensures FeedsUpTo(a + b, n) == FeedsUpTo(a, n)
  {
    if n > 0 {
      FeedsUpToPrefix(a, b, n - 1);
    }
  }

  lemma {:induction false} FeedsUpToSuffix(a: seq<Call>, b: seq<Call>, j: nat)
    requires j <= |b|
    ensures FeedsUpTo(a + b, |a| + j) == Feeds(a) + FeedsUpTo(b, j)
  {
    if j == 0 {
      FeedsUpToPrefix(a, b, |a|);
    } else {
      FeedsUpToSuffix(a, b, j - 1);
    }
  }

  lemma FeedsAppend(a: seq<Call>, b: seq<Call>)
    ensures Feeds(a + b) == Feeds(a) + Feeds(b)
  {
    FeedsUpToSuffix(a, b, |b|);
  }

  /** A single call feeds its price if it is a feed, and starts a round if it is a round start. */
  lemma SingleCallCounts(c: Call)
    ensures Feeds([c]) == if c.FeedPrice? then [c.price] else []
    ensures RoundStarts([c]) == if c.StartNewRound? then 1 else 0
  {
    assert FeedsUpTo([c], 0) == [] && RoundStartsUpTo([c], 0) == 0;
  }

  /** A day feeds exactly its price and starts a round exactly when it is the first of a round. */
  lemma ScheduleCounts(snapshot: bool, startsRound: bool, price: real)
    ensures Feeds(Schedule(snapshot, startsRound, price)) == [price]
    ensures RoundStarts(Schedule(snapshot, startsRound, price)) == if startsRound then 1 else 0
  {
    var day := Schedule(snapshot, startsRound, price);
    var feed: seq<Call> := [FeedPrice(price)];
    SingleCallCounts(FeedPrice(price));
    if snapshot && startsRound {
      var two: seq<Call> := [GetInvestStatus, StartNewRound(DAYS_PER_ROUND)];
      SingleCallCounts(GetInvestStatus);
      SingleCallCounts(StartNewRound(DAYS_PER_ROUND));
      FeedsAppend([GetInvestStatus], [StartNewRound(DAYS_PER_ROUND)]);
      RoundStartsAppend([GetInvestStatus], [StartNewRound(DAYS_PER_ROUND)]);
      assert day == two + feed && two == [GetInvestStatus] + [StartNewRound(DAYS_PER_ROUND)];
      FeedsAppend(two, feed);
      RoundStartsAppend(two, feed);
    } else if snapshot || startsRound {
      var c := if snapshot then GetInvestStatus else StartNewRound(DAYS_PER_ROUND);
      SingleCallCounts(c);
      assert day == [c] + feed;
      FeedsAppend([c], feed);
      RoundStartsAppend([c], feed);
    }
  }

  lemma DayCallsFeeds(rows: seq<Row>, bearStart: nat, lowest: nat, index: nat)
    requires bearStart <= index < |rows|
    ensures Feeds(DayCalls(rows, bearStart, lowest, index)) == [rows[index].price]
  {
    ScheduleCounts(index == lowest, FirstOfRound(index - bearStart), rows[index].price);
  }

  lemma {:induction false} TickCallsFeeds(rows: seq<Row>, bearStart: nat, lowest: nat, end: nat)
    requires bearStart <= end <= |rows|
    ensures Feeds(TickCalls(rows, bearStart, lowest, bearStart, end)) == Prices(rows, bearStart, end)
    decreases end - bearStart
  {
    if end > bearStart {
      TickCallsFeeds(rows, bearStart, lowest, end - 1);
      FeedsAppend(TickCalls(rows, bearStart, lowest, bearStart, end - 1), DayCalls(rows, bearStart, lowest, end - 1));
      DayCallsFeeds(rows, bearStart, lowest, end - 1);
    }
  }

  /**
   * The driver feeds the allocator exactly the prices of the bear market, each once and in
   * the order of the rows.
   */
  lemma DriverFeedsEachDayOnce(rows: seq<Row>, bearStart: nat, bullStart: nat, lowest: nat)
    requires bullStart <= |rows|
    ensures Feeds(DriverCalls(rows, bearStart, bullStart, lowest)) ==
            (if bearStart < bullStart then Prices(rows, bearStart, bullStart) else [])
  {
    var head: seq<Call> := [SetSupply(DOLLAR_COST_AVERAGE_SUPPLY.0)];
    SingleCallCounts(SetSupply(DOLLAR_COST_AVERAGE_SUPPLY.0));
    SingleCallCounts(GetInvestStatus);
    if bearStart < bullStart {
      var ticks := TickCalls(rows, bearStart, lowest, bearStart, bullStart);
      assert DriverCalls(rows, bearStart, bullStart, lowest) == (head + ticks) + [GetInvestStatus];
      FeedsAppend(head + ticks, [GetInvestStatus]);
      FeedsAppend(head, ticks);
      TickCallsFeeds(rows, bearStart, lowest, bullStart);
    } else {
      assert DriverCalls(rows, bearStart, bullStart, lowest) == head + [GetInvestStatus];
      FeedsAppend(head, [GetInvestStatus]);
    }
  }

  /** Before the totals are read at the lowest day, exactly the earlier days have been fed. */
  lemma SnapshotFollowsEarlierDays(rows: seq<Row>, bearStart: nat, lowest: nat)
    requires bearStart <= lowest < |rows|
    ensures Feeds(CallsBefore(rows, bearStart, lowest, lowest)) == Prices(rows, bearStart, lowest)
    ensures DayCalls(rows, bearStart, lowest, lowest)[0] == GetInvestStatus
  {
    FeedsAppend([SetSupply(DOLLAR_COST_AVERAGE_SUPPLY.0)], TickCalls(rows, bearStart, lowest, bearStart, lowest));
    SingleCallCounts(SetSupply(DOLLAR_COST_AVERAGE_SUPPLY.0));
    TickCallsFeeds(rows, bearStart, lowest, lowest);
  }

  /** Tick k of the bear market (counted from 0) starts a round: the driver's counter is back at 0. */
  predicate FirstOfRound(k: nat)
  {
    RoundTick(k) == 0
  }

  /** Number of rounds started on the ticks bearStart..end-1 of a bear market starting at bearStart. */
  function Rounds(bearStart: nat, end: nat): nat
    requires bearStart <= end
    decreases end - bearStart
  {
    if end == bearStart then 0 else Rounds(bearStart, end - 1) + (if FirstOfRound(end - 1 - bearStart) then 1 else 0)
  }

  /** A round starts on the first tick and then once every DAYS_PER_ROUND ticks: ceil(n / 30). */
  lemma {:induction false} RoundsClosedForm(bearStart: nat, end: nat)
    requires bearStart <= end
    ensures Rounds(bearStart, end) == (end - bearStart + DAYS_PER_ROUND - 1) / DAYS_PER_ROUND
    decreases end - bearStart
  {
    if end > bearStart {
      RoundsClosedForm(bearStart, end - 1);
      var m := end - 1 - bearStart;
      RoundTickIsMod(m);
      var q, r := m / DAYS_PER_ROUND, m % DAYS_PER_ROUND;
      assert m == DAYS_PER_ROUND * q + r;
      assert (m + DAYS_PER_ROUND) / DAYS_PER_ROUND == q + 1;
      if r == 0 {
        assert (m + DAYS_PER_ROUND - 1) / DAYS_PER_ROUND == q;
      } else {
        assert (m + DAYS_PER_ROUND - 1) / DAYS_PER_ROUND == q + 1;
      }
    }
  }

  /** Number of `start_new_round` calls among the first n calls. */
  function RoundStartsUpTo(calls: seq<Call>, n: nat): nat
    requires n <= |calls|
  {
    if n == 0 then 0 else RoundStartsUpTo(calls, n - 1) + (if calls[n - 1].StartNewRound? then 1 else 0)
  }

  /** Number of `start_new_round` calls. */
  function RoundStarts(calls: seq<Call>): nat
  {
    RoundStartsUpTo(calls, |calls|)
  }

  lemma {:induction false} RoundStartsUpToPrefix(a: seq<Call>, b: seq<Call>, n: nat)
    requires n <= |a|
    ensures RoundStartsUpTo(a + b, n) == RoundStartsUpTo(a, n)
  {
    if n > 0 {
      RoundStartsUpToPrefix(a, b, n - 1);
    }
  }

  lemma {:induction false} RoundStartsUpToSuffix(a: seq<Call>, b: seq<Call>, j: nat)
    requires j <= |b|
    ensures RoundStartsUpTo(a + b, |a| + j) == RoundStarts(a) + RoundStartsUpTo(b, j)
  {
    if j == 0 {
      RoundStartsUpToPrefix(a, b, |a|);
    } else {
      RoundStartsUpToSuffix(a, b, j - 1);
    }
  }

  lemma RoundStartsAppend(a: seq<Call>, b: seq<Call>)
    ensures RoundStarts(a + b) == RoundStarts(a) + RoundStarts(b)
  {
    RoundStartsUpToSuffix(a, b, |b|);
  }

  lemma {:induction false} TickCallsRounds(rows: seq<Row>, bearStart: nat, lowest: nat, end: nat)
    requires bearStart <= end <= |rows|
    ensures RoundStarts(TickCalls(rows, bearStart, lowest, bearStart, end)) == Rounds(bearStart, end)
    decreases end - bearStart
  {
    if end > bearStart {
      TickCallsRounds(rows, bearStart, lowest, end - 1);
      var i := end - 1;
      RoundStartsAfterDay(TickCalls(rows, bearStart, lowest, bearStart, i), i == lowest, FirstOfRound(i - bearStart), rows[i].price);
    }
  }

  lemma RoundStartsAfterDay(before: seq<Call>, snapshot: bool, startsRound: bool, price: real)
    ensures RoundStarts(before + Schedule(snapshot, startsRound, price)) ==
            RoundStarts(before) + if startsRound then 1 else 0
  {
    RoundStartsAppend(before, Schedule(snapshot, startsRound, price));
    ScheduleCounts(snapshot, startsRound, price);
  }

  /** The driver starts ceil(n / DAYS_PER_ROUND) rounds for a bear market of n ticks. */
  lemma DriverStartsRounds(rows: seq<Row>, bearStart: nat, bullStart: nat, lowest: nat)
    requires bullStart <= |rows|
    ensures RoundStarts(DriverCalls(rows, bearStart, bullStart, lowest)) ==
            (if bearStart < bullStart then (bullStart - bearStart + DAYS_PER_ROUND - 1) / DAYS_PER_ROUND else 0)
  {
    DriverCallsRoundStarts(rows, bearStart, bullStart, lowest);
    if bearStart < bullStart {
      TickCallsRounds(rows, bearStart, lowest, bullStart);
      RoundsClosedForm(bearStart, bullStart);
    }
  }

  /** Only the ticks of the driver start rounds; the supply call and the final read do not. */
  lemma DriverCallsRoundStarts(rows: seq<Row>, bearStart: nat, bullStart: nat, lowest: nat)
    requires bullStart <= |rows|
    ensures RoundStarts(DriverCalls(rows, bearStart, bullStart, lowest)) ==
            (if bearStart < bullStart then RoundStarts(TickCalls(rows, bearStart, lowest, bearStart, bullStart)) else 0)
  {
    var ticks := if bearStart < bullStart then TickCalls(rows, bearStart, lowest, bearStart, bullStart) else [];
    var head: seq<Call> := [SetSupply(DOLLAR_COST_AVERAGE_SUPPLY.0)];
    RoundStartsAppend(head + ticks, [GetInvestStatus]);
    RoundStartsAppend(head, ticks);
    SingleCallCounts(SetSupply(DOLLAR_COST_AVERAGE_SUPPLY.0));
    SingleCallCounts(GetInvestStatus);
  }

  // ---------------------------------------------------------------------------------------
  // What the driver does to each allocator
  // ---------------------------------------------------------------------------------------

  predicate RowsPositive(rows: seq<Row>, lo: nat, hi: nat)
    requires lo <= hi <= |rows|
  {
    forall i :: lo <= i < hi ==> rows[i].price > 0.0
  }

  /** Run over one iteration of the loop, call by call. */
  lemma RunDay(f: Stepper, st: AllocState, rows: seq<Row>, bearStart: nat, lowest: nat, index: nat)
    requires bearStart <= index < |rows|
    ensures RunBy(f, st, DayCalls(rows, bearStart, lowest, index)) ==
            ThenBy(f, ThenBy(f, RunBy(f, st, SnapshotCalls(index, lowest)), RoundCalls(bearStart, index)),
                 [FeedPrice(rows[index].price)])
  {
    DayCallsParts(rows, bearStart, lowest, index);
    var s, r := SnapshotCalls(index, lowest), RoundCalls(bearStart, index);
    RunAppend(f, st, s + r, [FeedPrice(rows[index].price)]);
    RunAppend(f, st, s, r);
  }

  /** Run over the days up to `end` is the run up to the day before, then that day. */
  lemma RunTicksStep(f: Stepper, st: AllocState, rows: seq<Row>, bearStart: nat, lowest: nat, end: nat)
    requires bearStart < end <= |rows|
    ensures RunBy(f, st, TickCalls(rows, bearStart, lowest, bearStart, end)) ==
            ThenBy(f, RunBy(f, st, TickCalls(rows, bearStart, lowest, bearStart, end - 1)), DayCalls(rows, bearStart, lowest, end - 1))
  {
    RunAppend(f, st, TickCalls(rows, bearStart, lowest, bearStart, end - 1), DayCalls(rows, bearStart, lowest, end - 1));
  }

  /** A driver run: the supply call, the ticks, then a status read that changes nothing. */
  lemma RunDriver(f: Stepper, st: AllocState, st1: AllocState, b: AllocState, rows: seq<Row>,
                  bearStart: nat, bullStart: nat, lowest: nat)
    requires bearStart < bullStart <= |rows|
    requires f(st, SetSupply(DOLLAR_COST_AVERAGE_SUPPLY.0)) == Some(st1)
    requires RunBy(f, st1, TickCalls(rows, bearStart, lowest, bearStart, bullStart)) == Some(b)
    requires f(b, GetInvestStatus) == Some(b)
    ensures RunBy(f, st, DriverCalls(rows, bearStart, bullStart, lowest)) == Some(b)
  {
    var head: seq<Call> := [SetSupply(DOLLAR_COST_AVERAGE_SUPPLY.0)];
    var ticks := TickCalls(rows, bearStart, lowest, bearStart, bullStart);
    RunAppend(f, st, head + ticks, [GetInvestStatus]);
    RunAppend(f, st, head, ticks);
    RunSingle(f, st, SetSupply(DOLLAR_COST_AVERAGE_SUPPLY.0));
    assert ThenBy(f, RunBy(f, st, head), ticks) == RunBy(f, st1, ticks);
    RunSingle(f, b, GetInvestStatus);
    assert ThenBy(f, RunBy(f, st, head + ticks), [GetInvestStatus]) == RunBy(f, b, [GetInvestStatus]);
  }

  /** Coins the lump-sum allocator buys: the budget at the first price of every round. */
  function RoundCoins(rows: seq<Row>, bearStart: nat, end: nat, amount: real): real
    requires bearStart <= end <= |rows| && RowsPositive(rows, bearStart, end)
    decreases end - bearStart
  {
    if end == bearStart then 0.0
    else
      RoundCoins(rows, bearStart, end - 1, amount)
      + (if FirstOfRound(end - 1 - bearStart) then amount / rows[end - 1].price else 0.0)
  }

  /** n times the amount a, as repeated addition. */
  function Times(n: nat, a: real): real
  {
    if n == 0 then 0.0 else Times(n - 1, a) + a
  }

  lemma {:induction false} TimesIsProduct(n: nat, a: real)
    ensures Times(n, a) == (n as real) * a
  {
    if n > 0 {
      TimesIsProduct(n - 1, a);
      assert ((n - 1) as real) * a + a == (n as real) * a;
    }
  }

  /** The lump-sum allocator after one day of the driver: it invests on the first day of a round. */
  function DcaAfterDay(m: DcaState, rows: seq<Row>, bearStart: nat, i: nat): DcaState
    requires bearStart <= i < |rows| && rows[i].price > 0.0
  {
    var starts := FirstOfRound(i - bearStart);
    DcaState(m.amountRound, m.totalCash + (if starts then m.amountRound else 0.0),
             m.totalCoins + (if starts then m.amountRound / rows[i].price else 0.0), -1)
  }

  lemma DcaDay(m: DcaState, rows: seq<Row>, bearStart: nat, lowest: nat, i: nat)
    requires bearStart <= i < |rows| && rows[i].price > 0.0
    requires !FirstOfRound(i - bearStart) ==> m.tick == -1
    ensures Run(DcaKind, DcaAt(m), DayCalls(rows, bearStart, lowest, i)) == Some(DcaAt(DcaAfterDay(m, rows, bearStart, i)))
  {
    var st := DcaAt(m);
    RunDay(StepOf(DcaKind), st, rows, bearStart, lowest, i);
    var r0 := Run(DcaKind, st, SnapshotCalls(i, lowest));
    if i == lowest {
      RunSingle(StepOf(DcaKind), st, GetInvestStatus);
    }
    assert r0 == Some(st);
    var st1 := if FirstOfRound(i - bearStart) then DcaAt(m.(tick := 0)) else st;
    if FirstOfRound(i - bearStart) {
      RunSingle(StepOf(DcaKind), st, StartNewRound(DAYS_PER_ROUND));
    }
    assert Then(DcaKind, r0, RoundCalls(bearStart, i)) == Some(st1);
    var feed := [FeedPrice(rows[i].price)];
    RunSingle(StepOf(DcaKind), st1, FeedPrice(rows[i].price));
    assert Then(DcaKind, Some(st1), feed) == Run(DcaKind, st1, feed);
    var m1, p := st1.dca, rows[i].price;
    assert Step(DcaKind, st1, FeedPrice(p)) == DcaCall(m1, FeedPrice(p));
    assert DcaCall(m1, FeedPrice(p)) == Some(DcaAt(DcaStep(m1, FeedPrice(p))));
    var d := DcaAfterDay(m, rows, bearStart, i);
    if FirstOfRound(i - bearStart) {
      assert m1.tick == 0;
      assert d == DcaState(m.amountRound, m.totalCash + m.amountRound, m.totalCoins + m.amountRound / p, -1);
    } else {
      assert m1 == m && m.tick == -1;
      assert d == DcaState(m.amountRound, m.totalCash + 0.0, m.totalCoins + 0.0, -1);
    }
    assert DcaStep(m1, FeedPrice(p)) == d;
  }

  /** The lump-sum allocator after the days bearStart..end-1, in closed form. */
  function DcaAfterTicks(s: DcaState, rows: seq<Row>, bearStart: nat, end: nat): DcaState
    requires bearStart <= end <= |rows| && RowsPositive(rows, bearStart, end)
  {
    DcaState(s.amountRound, s.totalCash + Times(Rounds(bearStart, end), s.amountRound),
             s.totalCoins + RoundCoins(rows, bearStart, end, s.amountRound),
             if end == bearStart then s.tick else -1)
  }

  lemma DcaAfterTicksStep(s: DcaState, rows: seq<Row>, bearStart: nat, end: nat)
    requires bearStart < end <= |rows| && RowsPositive(rows, bearStart, end)
    ensures DcaAfterTicks(s, rows, bearStart, end) == DcaAfterDay(DcaAfterTicks(s, rows, bearStart, end - 1), rows, bearStart, end - 1)
  {
    var m, m' := DcaAfterTicks(s, rows, bearStart, end - 1), DcaAfterTicks(s, rows, bearStart, end);
    var d := DcaAfterDay(m, rows, bearStart, end - 1);
    assert m'.amountRound == d.amountRound;
    assert m'.totalCash == d.totalCash;
    assert m'.totalCoins == d.totalCoins;
    assert m'.tick == d.tick;
  }

  lemma {:induction false} DcaTicks(rows: seq<Row>, bearStart: nat, lowest: nat, end: nat, s: DcaState)
    requires bearStart <= end <= |rows| && RowsPositive(rows, bearStart, end)
    ensures Run(DcaKind, DcaAt(s), TickCalls(rows, bearStart, lowest, bearStart, end)) ==
            Some(DcaAt(DcaAfterTicks(s, rows, bearStart, end)))
    decreases end - bearStart
  {
    if end == bearStart {
      assert TickCalls(rows, bearStart, lowest, bearStart, end) == [];
      assert DcaAfterTicks(s, rows, bearStart, end) == s;
    } else {
      var i := end - 1;
      DcaTicks(rows, bearStart, lowest, i, s);
      RunTicksStep(StepOf(DcaKind), DcaAt(s), rows, bearStart, lowest, end);
      var m, day := DcaAfterTicks(s, rows, bearStart, i), DayCalls(rows, bearStart, lowest, i);
      DcaDay(m, rows, bearStart, lowest, i);
      DcaAfterTicksStep(s, rows, bearStart, end);
      assert Then(DcaKind, Some(DcaAt(m)), day) == Run(DcaKind, DcaAt(m), day);
    }
  }

  /**
   * Under the driver the lump-sum allocator invests the round budget of 2000 once per round,
   * at the first price of the round: ceil(n / 30) times for a bear market of n ticks.
   */
  lemma DcaUnderDriver(rows: seq<Row>, bearStart: nat, bullStart: nat, lowest: nat, s: DcaState)
    requires bearStart < bullStart <= |rows| && RowsPositive(rows, bearStart, bullStart)
    ensures var amount := DOLLAR_COST_AVERAGE_SUPPLY.0;
      Run(DcaKind, DcaAt(s), DriverCalls(rows, bearStart, bullStart, lowest)) ==
      Some(DcaAt(DcaState(amount,
                          s.totalCash + amount * (((bullStart - bearStart + DAYS_PER_ROUND - 1) / DAYS_PER_ROUND) as real),
                          s.totalCoins + RoundCoins(rows, bearStart, bullStart, amount), -1)))
  {
    var amount := DOLLAR_COST_AVERAGE_SUPPLY.0;
    var s1 := s.(amountRound := amount);
    RunSingle(StepOf(DcaKind), DcaAt(s), SetSupply(amount));
    assert Step(DcaKind, DcaAt(s), SetSupply(amount)) == Some(DcaAt(s1));
    DcaTicks(rows, bearStart, lowest, bullStart, s1);
    var b := DcaAfterTicks(s1, rows, bearStart, bullStart);
    assert Step(DcaKind, DcaAt(b), GetInvestStatus) == Some(DcaAt(b));
    RunDriver(StepOf(DcaKind), DcaAt(s), DcaAt(s1), DcaAt(b), rows, bearStart, bullStart, lowest);
    DcaAfterBear(rows, bearStart, bullStart, s1);
  }

  /** The closed form after a bear market: ceil(n / 30) round budgets, the tick spent. */
  lemma DcaAfterBear(rows: seq<Row>, bearStart: nat, bullStart: nat, s: DcaState)
    requires bearStart < bullStart <= |rows| && RowsPositive(rows, bearStart, bullStart)
    ensures DcaAfterTicks(s, rows, bearStart, bullStart) ==
            DcaState(s.amountRound,
                     s.totalCash + s.amountRound * (((bullStart - bearStart + DAYS_PER_ROUND - 1) / DAYS_PER_ROUND) as real),
                     s.totalCoins + RoundCoins(rows, bearStart, bullStart, s.amountRound), -1)
  {
    RoundsClosedForm(bearStart, bullStart);
    TimesIsProduct(Rounds(bearStart, bullStart), s.amountRound);
  }

  /** Coins the daily allocator buys: the daily share of the budget at every price. */
  function DailyCoins(rows: seq<Row>, bearStart: nat, end: nat, amount: real): real
    requires bearStart <= end <= |rows| && RowsPositive(rows, bearStart, end)
    decreases end - bearStart
  {
    if end == bearStart then 0.0
    else DailyCoins(rows, bearStart, end - 1, amount) + amount / (DAYS_PER_ROUND as real) / rows[end - 1].price
  }

  /** The daily allocator after one day of the driver: the round length is set before the feed. */
  function DailyAfterDay(m: DailyState, rows: seq<Row>, i: nat): DailyState
    requires i < |rows| && rows[i].price > 0.0
  {
    var q := m.amountRound / (DAYS_PER_ROUND as real);
    DailyState(m.amountRound, m.totalCash + q, m.totalCoins + q / rows[i].price, DAYS_PER_ROUND as real)
  }

  lemma DailyDay(m: DailyState, rows: seq<Row>, bearStart: nat, lowest: nat, i: nat)
    requires bearStart <= i < |rows| && rows[i].price > 0.0
    requires !FirstOfRound(i - bearStart) ==> m.ticks == DAYS_PER_ROUND as real
    ensures Run(DailyKind, DailyAt(m), DayCalls(rows, bearStart, lowest, i)) == Some(DailyAt(DailyAfterDay(m, rows, i)))
  {
    var st := DailyAt(m);
    RunDay(StepOf(DailyKind), st, rows, bearStart, lowest, i);
    var r0 := Run(DailyKind, st, SnapshotCalls(i, lowest));
    if i == lowest {
      RunSingle(StepOf(DailyKind), st, GetInvestStatus);
    }
    assert r0 == Some(st);
    var m1 := m.(ticks := DAYS_PER_ROUND as real);
    var st1 := DailyAt(m1);
    if FirstOfRound(i - bearStart) {
      RunSingle(StepOf(DailyKind), st, StartNewRound(DAYS_PER_ROUND));
    } else {
      assert st1 == st;
    }
    assert Then(DailyKind, r0, RoundCalls(bearStart, i)) == Some(st1);
    var p := rows[i].price;
    var feed := [FeedPrice(p)];
    RunSingle(StepOf(DailyKind), st1, FeedPrice(p));
    assert Then(DailyKind, Some(st1), feed) == Run(DailyKind, st1, feed);
    assert Step(DailyKind, st1, FeedPrice(p)) == DailyCall(m1, FeedPrice(p));
    assert DailyCall(m1, FeedPrice(p)) == Some(DailyAt(DailyStep(m1, FeedPrice(p))));
    assert DailyStep(m1, FeedPrice(p)) == DailyAfterDay(m, rows, i);
  }

  /** The daily allocator after the days bearStart..end-1, in closed form. */
  function DailyAfterTicks(s: DailyState, rows: seq<Row>, bearStart: nat, end: nat): DailyState
    requires bearStart <= end <= |rows| && RowsPositive(rows, bearStart, end)
  {
    DailyState(s.amountRound, s.totalCash + Times(end - bearStart, s.amountRound / (DAYS_PER_ROUND as real)),
               s.totalCoins + DailyCoins(rows, bearStart, end, s.amountRound),
               if end == bearStart then s.ticks else DAYS_PER_ROUND as real)
  }

  lemma DailyAfterTicksStep(s: DailyState, rows: seq<Row>, bearStart: nat, end: nat)
    requires bearStart < end <= |rows| && RowsPositive(rows, bearStart, end)
    ensures DailyAfterTicks(s, rows, bearStart, end) == DailyAfterDay(DailyAfterTicks(s, rows, bearStart, end - 1), rows, end - 1)
  {
    var m, m' := DailyAfterTicks(s, rows, bearStart, end - 1), DailyAfterTicks(s, rows, bearStart, end);
    var d := DailyAfterDay(m, rows, end - 1);
    assert m'.amountRound == d.amountRound;
    assert m'.totalCash == d.totalCash;
    assert m'.totalCoins == d.totalCoins;
    assert m'.ticks == d.ticks;
  }

  lemma {:induction false} DailyTicks(rows: seq<Row>, bearStart: nat, lowest: nat, end: nat, s: DailyState)
    requires bearStart <= end <= |rows| && RowsPositive(rows, bearStart, end)
    ensures Run(DailyKind, DailyAt(s), TickCalls(rows, bearStart, lowest, bearStart, end)) ==
            Some(DailyAt(DailyAfterTicks(s, rows, bearStart, end)))
    decreases end - bearStart
  {
    if end == bearStart {
      assert TickCalls(rows, bearStart, lowest, bearStart, end) == [];
      assert DailyAfterTicks(s, rows, bearStart, end) == s;
    } else {
      var i := end - 1;
      DailyTicks(rows, bearStart, lowest, i, s);
      RunTicksStep(StepOf(DailyKind), DailyAt(s), rows, bearStart, lowest, end);
      var m, day := DailyAfterTicks(s, rows, bearStart, i), DayCalls(rows, bearStart, lowest, i);
      DailyDay(m, rows, bearStart, lowest, i);
      DailyAfterTicksStep(s, rows, bearStart, end);
      assert Then(DailyKind, Some(DailyAt(m)), day) == Run(DailyKind, DailyAt(m), day);
    }
  }

  /**
   * Under the driver the daily allocator spends the budget of 2000 in equal parts of 2000 / 30
   * on every tick, whatever the prices, and buys coins at every price.
   */
  lemma DailyUnderDriver(rows: seq<Row>, bearStart: nat, bullStart: nat, lowest: nat, s: DailyState)
    requires bearStart < bullStart <= |rows| && RowsPositive(rows, bearStart, bullStart)
    ensures var amount := DOLLAR_COST_AVERAGE_SUPPLY.0;
      Run(DailyKind, DailyAt(s), DriverCalls(rows, bearStart, bullStart, lowest)) ==
      Some(DailyAt(DailyState(amount,
                              s.totalCash + ((bullStart - bearStart) as real) * (amount / (DAYS_PER_ROUND as real)),
                              s.totalCoins + DailyCoins(rows, bearStart, bullStart, amount), DAYS_PER_ROUND as real)))
  {
    var amount := DOLLAR_COST_AVERAGE_SUPPLY.0;
    var s1 := s.(amountRound := amount);
    RunSingle(StepOf(DailyKind), DailyAt(s), SetSupply(amount));
    assert Step(DailyKind, DailyAt(s), SetSupply(amount)) == Some(DailyAt(s1));
    DailyTicks(rows, bearStart, lowest, bullStart, s1);
    var b := DailyAfterTicks(s1, rows, bearStart, bullStart);
    assert Step(DailyKind, DailyAt(b), GetInvestStatus) == Some(DailyAt(b));
    RunDriver(StepOf(DailyKind), DailyAt(s), DailyAt(s1), DailyAt(b), rows, bearStart, bullStart, lowest);
    DailyAfterBear(rows, bearStart, bullStart, s1);
  }

  /** The closed form after a bear market: n daily shares, the round length set. */
  lemma DailyAfterBear(rows: seq<Row>, bearStart: nat, bullStart: nat, s: DailyState)
    requires bearStart < bullStart <= |rows| && RowsPositive(rows, bearStart, bullStart)
    ensures DailyAfterTicks(s, rows, bearStart, bullStart) ==
            DailyState(s.amountRound,
                       s.totalCash + ((bullStart - bearStart) as real) * (s.amountRound / (DAYS_PER_ROUND as real)),
                       s.totalCoins + DailyCoins(rows, bearStart, bullStart, s.amountRound), DAYS_PER_ROUND as real)
  {
    TimesIsProduct(bullStart - bearStart, s.amountRound / (DAYS_PER_ROUND as real));
  }

  /** Calls the fixed-funding ladders accept: positive prices, rounds of the standard length. */
  predicate Accepted(calls: seq<Call>)
  {
    forall i :: 0 <= i < |calls| ==>
      (calls[i].FeedPrice? ==> calls[i].price > 0.0) && (calls[i].StartNewRound? ==> calls[i].ticks == DAYS_PER_ROUND)
  }

  /** A ladder with fixed funding runs to the end of any accepted sequence of calls. */
  lemma FixedLaddersComplete(k: Kind, st: AllocState, calls: seq<Call>)
    requires k.FixedKind? || k.ImaginaryKind?
    requires StateOk(k, st) && Accepted(calls)
    ensures Run(k, st, calls).Some?
  {
    FixedLaddersCompleteUpTo(k, st, calls, |calls|);
  }

  /** The first n accepted calls go through and keep the invariant. */
  lemma {:induction false} FixedLaddersCompleteUpTo(k: Kind, st: AllocState, calls: seq<Call>, n: nat)
    requires k.FixedKind? || k.ImaginaryKind?
    requires StateOk(k, st) && Accepted(calls) && n <= |calls|
    ensures RunUpTo(StepOf(k), st, calls, n).Some? && StateOk(k, RunUpTo(StepOf(k), st, calls, n).value)
  {
    if n > 0 {
      FixedLaddersCompleteUpTo(k, st, calls, n - 1);
      var before := RunUpTo(StepOf(k), st, calls, n - 1);
      StepKeeps(k, before.value, calls[n - 1]);
    }
  }

  lemma {:induction false} TickCallsAccepted(rows: seq<Row>, bearStart: nat, lowest: nat, end: nat)
    requires bearStart <= end <= |rows| && RowsPositive(rows, bearStart, end)
    ensures Accepted(TickCalls(rows, bearStart, lowest, bearStart, end))
    decreases end - bearStart
  {
    if end > bearStart {
      TickCallsAccepted(rows, bearStart, lowest, end - 1);
    }
  }

  /**
   * The ladders with fixed funding never stop under the driver: every round it starts has the
   * length their assertion expects, and every price it feeds is positive.
   */
  lemma FixedLaddersCompleteUnderDriver(k: Kind, st: AllocState, rows: seq<Row>, bearStart: nat, bullStart: nat,
                                        lowest: nat)
    requires k.FixedKind? || k.ImaginaryKind?
    requires StateOk(k, st) && bullStart <= |rows|
    requires bearStart <= bullStart ==> RowsPositive(rows, bearStart, bullStart)
    ensures Run(k, st, DriverCalls(rows, bearStart, bullStart, lowest)).Some?
  {
    if bearStart < bullStart {
      TickCallsAccepted(rows, bearStart, lowest, bullStart);
    }
    FixedLaddersComplete(k, st, DriverCalls(rows, bearStart, bullStart, lowest));
  }

  /** The driver's result: the three returned values and the two values it prints. */
  datatype DriverResult = DriverResult(
    investedCash: real,
    finalCoins: real,
    averagePrice: Option<real>,
    worstCash: real,
    worstCoins: real)

  /** The average purchase price; `None` where the division by zero coins has no finite value. */
  function Average(cash: real, coins: real): Option<real>
  {
    if coins == 0.0 then None else Some(cash / coins)
  }

  /** The totals read at the lowest day; zero where the run stopped before that day. */
  function SnapshotTotals(f: Stepper, st: AllocState, rows: seq<Row>, bearStart: nat, lowest: nat): (real, real)
    requires bearStart <= lowest < |rows|
  {
    var snap := RunBy(f, st, CallsBefore(rows, bearStart, lowest, lowest));
    if snap.Some? then Totals(snap.value) else (0.0, 0.0)
  }

  /** The cash read at the lowest day, once the days before `index` have been fed. */
  function SeenCash(f: Stepper, st: AllocState, rows: seq<Row>, bearStart: nat, lowest: nat, index: nat): real
    requires lowest < |rows|
  {
    if bearStart <= lowest < index then SnapshotTotals(f, st, rows, bearStart, lowest).0 else 0.0
  }

  /** The coins read at the lowest day, once the days before `index` have been fed. */
  function SeenCoins(f: Stepper, st: AllocState, rows: seq<Row>, bearStart: nat, lowest: nat, index: nat): real
    requires lowest < |rows|
  {
    if bearStart <= lowest < index then SnapshotTotals(f, st, rows, bearStart, lowest).1 else 0.0
  }

  /**
   * What `dollar_cost_average` returns, computed from the run of its calls. The worst-case
   * values add the totals read at the lowest day, when that day lies in the bear market.
   */
  function DriverOutcome(f: Stepper, st: AllocState, rows: seq<Row>, bullStart: nat, bearStart: nat,
                         bearStartCoins: real, lowest: nat, cashInvested: real): Option<DriverResult>
    requires bullStart <= |rows| && lowest < |rows|
  {
    var r := RunBy(f, st, DriverCalls(rows, bearStart, bullStart, lowest));
    if r.None? then None
    else
      var (cash, coins) := Totals(r.value);
      Some(DriverResult(cash, bearStartCoins + coins, Average(cash, coins),
                        cashInvested + SeenCash(f, st, rows, bearStart, lowest, bullStart),
                        bearStartCoins + SeenCoins(f, st, rows, bearStart, lowest, bullStart)))
  }

  // ---------------------------------------------------------------------------------------
  // The allocator objects and the driver
  // ---------------------------------------------------------------------------------------

  /** An allocator object of any of the five kinds. */
  datatype Allocator =
    | Dca(dca: DollarCostAverage)
    | Daily(daily: DailyDollarCostAverage)
    | Fixed(fixed: Tests.AMMCostAverage)
    | Imaginary(imaginary: AmmCostAverage.AMMCostAverage)
    | Auto(auto: AmmCostAverageAuto.AMMCostAverageAuto)

  function KindOf(a: Allocator): Kind
  {
    match a
    case Dca(_) => DcaKind
    case Daily(_) => DailyKind
    case Fixed(x) => FixedKind(x.Cfg())
    case Imaginary(x) => ImaginaryKind(x.Cfg())
    case Auto(x) => AutoKind(x.Cfg(), x.pastUninvestedReinvestDailyPercentage)
  }

  function Repr(a: Allocator): set<object>
  {
    match a
    case Dca(x) => {x}
    case Daily(x) => {x}
    case Fixed(x) => {x}
    case Imaginary(x) => {x}
    case Auto(x) => {x}
  }

  function Abs(a: Allocator): AllocState
    reads Repr(a)
  {
    match a
    case Dca(x) => DcaAt(x.State())
    case Daily(x) => DailyAt(x.State())
    case Fixed(x) => LadderAt(x.State())
    case Imaginary(x) => LadderAt(x.State())
    case Auto(x) => LadderAt(x.State())
  }

  method ApplyDca(x: DollarCostAverage, c: Call) returns (ok: bool, status: (real, real))
    modifies x
    ensures Step(DcaKind, old(DcaAt(x.State())), c) == (if ok then Some(DcaAt(x.State())) else None)
    ensures ok && c.GetInvestStatus? ==> status == Totals(DcaAt(x.State()))
  {
    ok, status := true, (0.0, 0.0);
    match c
    case SetSupply(amount) => x.SetSupply(amount);
    case StartNewRound(ticks) => x.StartNewRound(ticks);
    case FeedPrice(price) =>
      if x.tick != 0 || price != 0.0 {
        x.FeedPrice(price);
      } else {
        ok := false;
      }
    case GetInvestStatus =>
      var cash, coins := x.GetInvestStatus();
      status := (cash, coins);
  }

  method ApplyDaily(x: DailyDollarCostAverage, c: Call) returns (ok: bool, status: (real, real))
    modifies x
    ensures Step(DailyKind, old(DailyAt(x.State())), c) == (if ok then Some(DailyAt(x.State())) else None)
    ensures ok && c.GetInvestStatus? ==> status == Totals(DailyAt(x.State()))
  {
    ok, status := true, (0.0, 0.0);
    match c
    case SetSupply(amount) => x.SetSupply(amount);
    case StartNewRound(ticks) => x.StartNewRound(ticks);
    case FeedPrice(price) =>
      if price != 0.0 && x.ticks != 0.0 {
        x.FeedPrice(price);
      } else {
        ok := false;
      }
    case GetInvestStatus =>
      var cash, coins := x.GetInvestStatus();
      status := (cash, coins);
  }

  method ApplyFixed(x: Tests.AMMCostAverage, c: Call) returns (ok: bool, status: (real, real))
    requires x.Valid()
    modifies x
    ensures Step(FixedKind(x.Cfg()), old(LadderAt(x.State())), c) == (if ok then Some(LadderAt(x.State())) else None)
    ensures ok && c.GetInvestStatus? ==> status == Totals(LadderAt(x.State()))
  {
    ok, status := true, (0.0, 0.0);
    match c
    case SetSupply(amount) => x.SetSupply(amount);
    case StartNewRound(ticks) => ok := x.StartNewRound(ticks);
    case FeedPrice(price) =>
      if price > 0.0 {
        x.FeedPrice(price);
      } else {
        ok := false;
      }
    case GetInvestStatus =>
      var cash, coins := x.GetInvestStatus();
      status := (cash, coins);
  }

  method ApplyImaginary(x: AmmCostAverage.AMMCostAverage, c: Call) returns (ok: bool, status: (real, real))
    requires x.Valid()
    modifies x
    ensures Step(ImaginaryKind(x.Cfg()), old(LadderAt(x.State())), c) == (if ok then Some(LadderAt(x.State())) else None)
    ensures ok && c.GetInvestStatus? ==> status == Totals(LadderAt(x.State()))
  {
    ok, status := true, (0.0, 0.0);
    match c
    case SetSupply(amount) => x.SetSupply(amount);
    case StartNewRound(ticks) => ok := x.StartNewRound(ticks);
    case FeedPrice(price) =>
      if price > 0.0 {
        x.FeedPrice(price);
      } else {
        ok := false;
      }
    case GetInvestStatus =>
      var cash, coins := x.GetInvestStatus();
      status := (cash, coins);
  }

  method ApplyAuto(x: AmmCostAverageAuto.AMMCostAverageAuto, c: Call) returns (ok: bool, status: (real, real))
    requires x.Valid()
    modifies x
    ensures Step(AutoKind(x.Cfg(), x.pastUninvestedReinvestDailyPercentage), old(LadderAt(x.State())), c) ==
            (if ok then Some(LadderAt(x.State())) else None)
    ensures ok && c.GetInvestStatus? ==> status == Totals(LadderAt(x.State()))
  {
    ok, status := true, (0.0, 0.0);
    match c
    case SetSupply(amount) => x.SetSupply(amount);
    case StartNewRound(ticks) => ok := x.StartNewRound(ticks);
    case FeedPrice(price) =>
      if price > 0.0 {
        var f := x.FeedPrice(price);
        ok := f.Funded?;
      } else {
        ok := false;
      }
    case GetInvestStatus =>
      var s := x.GetInvestStatus();
      if s.Some? {
        status := s.value;
      } else {
        ok := false;
      }
  }

  /** One call on whichever allocator `a` is. */
  method Apply(a: Allocator, ghost f: Stepper, c: Call) returns (ok: bool, status: (real, real))
    requires StateOk(KindOf(a), Abs(a)) && Implements(f, KindOf(a))
    modifies Repr(a)
    ensures f(old(Abs(a)), c) == (if ok then Some(Abs(a)) else None)
    ensures ok ==> StateOk(KindOf(a), Abs(a))
    ensures ok && c.GetInvestStatus? ==> status == Totals(Abs(a)) == Totals(old(Abs(a)))
  {
    ghost var st := Abs(a);
    match a {
      case Dca(x) => ok, status := ApplyDca(x, c);
      case Daily(x) => ok, status := ApplyDaily(x, c);
      case Fixed(x) => ok, status := ApplyFixed(x, c);
      case Imaginary(x) => ok, status := ApplyImaginary(x, c);
      case Auto(x) => ok, status := ApplyAuto(x, c);
    }
    StepKeeps(KindOf(a), st, c);
  }

  /** One iteration of the driver's loop; `snapshot` holds the totals read at the lowest day. */
  method FeedDay(a: Allocator, ghost f: Stepper, rows: seq<Row>, bearStart: nat, lowest: nat, index: nat,
                 startsRound: bool)
    returns (ok: bool, snapshot: (real, real))
    requires bearStart <= index < |rows|
    requires startsRound <==> FirstOfRound(index - bearStart)
    requires StateOk(KindOf(a), Abs(a)) && Implements(f, KindOf(a))
    modifies Repr(a)
    ensures RunBy(f, old(Abs(a)), DayCalls(rows, bearStart, lowest, index)) == (if ok then Some(Abs(a)) else None)
    ensures ok ==> StateOk(KindOf(a), Abs(a))
    ensures ok && index == lowest ==> snapshot == Totals(old(Abs(a)))
  {
    ghost var st0 := Abs(a);
    ghost var snap, round := SnapshotCalls(index, lowest), RoundCalls(bearStart, index);
    RunDay(f, st0, rows, bearStart, lowest, index);
    snapshot := (0.0, 0.0);
    if index == lowest {
      ok, snapshot := Apply(a, f, GetInvestStatus);
      RunSingle(f, st0, GetInvestStatus);
      if !ok {
        return;
      }
    }
    assert RunBy(f, st0, snap) == Some(Abs(a));
    ghost var st1 := Abs(a);
    if startsRound {
      var ignored;
      ok, ignored := Apply(a, f, StartNewRound(DAYS_PER_ROUND));
      RunSingle(f, st1, StartNewRound(DAYS_PER_ROUND));
      if !ok {
        return;
      }
    }
    assert ThenBy(f, RunBy(f, st0, snap), round) == Some(Abs(a));
    ghost var st2 := Abs(a);
    var ignored;
    ok, ignored := Apply(a, f, FeedPrice(rows[index].price));
    RunSingle(f, st2, FeedPrice(rows[index].price));
  }

  /**
   * The loop of `dollar_cost_average` over the days of the bear market; it stops early when an
   * allocator call stops the program.
   */
  method FeedBearMarket(a: Allocator, rows: seq<Row>, bearStart: nat, bullStart: nat, lowest: nat,
                        bearStartCoins: real, cashInvested: real, ghost f: Stepper, ghost st0: AllocState)
    returns (ok: bool, worstCash: real, worstCoins: real)
    requires lowest < |rows| && bullStart < |rows|
    requires StateOk(KindOf(a), Abs(a)) && Implements(f, KindOf(a))
    requires Reached(f, st0, rows, bearStart, lowest, bearStart) == Some(Abs(a))
    modifies Repr(a)
    ensures ok ==> StateOk(KindOf(a), Abs(a))
    ensures ok ==> Reached(f, st0, rows, bearStart, lowest, if bearStart < bullStart then bullStart else bearStart) ==
                   Some(Abs(a))
    ensures ok ==> worstCash == cashInvested + SeenCash(f, st0, rows, bearStart, lowest, bullStart)
    ensures ok ==> worstCoins == bearStartCoins + SeenCoins(f, st0, rows, bearStart, lowest, bullStart)
    ensures !ok ==> RunBy(f, st0, DriverCalls(rows, bearStart, bullStart, lowest)) == None
  {
    ghost var k := KindOf(a);
    ghost var last := if bearStart < bullStart then bullStart else bearStart;
    worstCoins := bearStartCoins;
    worstCash := cashInvested;
    var roundTicks: nat := 0;
    var index := bearStart;
    ghost var days: nat := 0;
    while index < bullStart
      invariant bearStart <= index <= last
      invariant days == index - bearStart && roundTicks == RoundTick(days)
      invariant StateOk(k, Abs(a))
      invariant Reached(f, st0, rows, bearStart, lowest, index) == Some(Abs(a))
      invariant worstCash == cashInvested + SeenCash(f, st0, rows, bearStart, lowest, index)
      invariant worstCoins == bearStartCoins + SeenCoins(f, st0, rows, bearStart, lowest, index)
      decreases bullStart - index
    {
      ghost var cur := Abs(a);
      var snapshot;
      ok, snapshot := FeedDay(a, f, rows, bearStart, lowest, index, roundTicks == 0);
      DriverDayStep(f, st0, rows, bearStart, bullStart, lowest, index, cur, if ok then Some(Abs(a)) else None, snapshot);
      if !ok {
        return;
      }
      if index == lowest {
        worstCoins := worstCoins + snapshot.1;
        worstCash := worstCash + snapshot.0;
      }
      RoundTickAdvance(days, roundTicks);
      roundTicks := roundTicks + 1;
      if roundTicks == DOLLAR_COST_AVERAGE_SUPPLY.1 {
        roundTicks := 0;
      }
      index, days := index + 1, days + 1;
    }
    ok := true;
    assert SeenCoins(f, st0, rows, bearStart, lowest, index) == SeenCoins(f, st0, rows, bearStart, lowest, bullStart);
  }

  /**
   * `dollar_cost_average`: the allocator ends in the state its run over `DriverCalls` predicts,
   * and the result is read from that state; the run stops exactly when the program would.
   * `beginTotalAsset` only enters the printed report.
   */
  method DollarCostAverageDriver(bullStart: nat, bearStart: nat, bearStartCoins: real, lowest: nat,
                                 cashInvested: real, beginTotalAsset: real, a: Allocator, rows: seq<Row>)
    returns (outcome: Option<DriverResult>)
    requires lowest < |rows| && bullStart < |rows|
    requires StateOk(KindOf(a), Abs(a))
    modifies Repr(a)
    ensures outcome == DriverOutcome(StepOf(KindOf(a)), old(Abs(a)), rows, bullStart, bearStart, bearStartCoins, lowest,
                                     cashInvested)
    ensures outcome.Some? ==> Run(KindOf(a), old(Abs(a)), DriverCalls(rows, bearStart, bullStart, lowest)) == Some(Abs(a))
  {
    ghost var k, st0 := KindOf(a), Abs(a);
    ghost var f := StepOf(k);
    StepOfImplements(k);
    var ok, ignored := Apply(a, f, SetSupply(DOLLAR_COST_AVERAGE_SUPPLY.0));
    var worstCash, worstCoins;
    ok, worstCash, worstCoins := FeedBearMarket(a, rows, bearStart, bullStart, lowest, bearStartCoins, cashInvested, f, st0);
    if !ok {
      DriverStopped(f, st0, rows, bullStart, bearStart, bearStartCoins, lowest, cashInvested);
      return None;
    }
    ghost var stLast := Abs(a);
    var status;
    ok, status := Apply(a, f, GetInvestStatus);
    DriverEnd(f, st0, rows, bearStart, bullStart, lowest, bearStartCoins, cashInvested, stLast,
              if ok then Some(Abs(a)) else None, status, worstCash, worstCoins);
    if !ok {
      return None;
    }
    outcome := Some(DriverResult(status.0, bearStartCoins + status.1, Average(status.0, status.1), worstCash, worstCoins));
  }

  /** A run of the driver that stops yields no result. */
  lemma DriverStopped(f: Stepper, st: AllocState, rows: seq<Row>, bullStart: nat, bearStart: nat,
                      bearStartCoins: real, lowest: nat, cashInvested: real)
    requires bullStart <= |rows| && lowest < |rows|
    requires RunBy(f, st, DriverCalls(rows, bearStart, bullStart, lowest)) == None
    ensures DriverOutcome(f, st, rows, bullStart, bearStart, bearStartCoins, lowest, cashInvested) == None
  {
  }

  /** Following the days one by one reaches the state the run over the calls made so far reaches. */
  lemma {:induction false} ReachedIsRun(f: Stepper, st: AllocState, rows: seq<Row>, bearStart: nat, lowest: nat, index: nat)
    requires bearStart <= index && (bearStart < index ==> index <= |rows|)
    ensures Reached(f, st, rows, bearStart, lowest, index) == RunBy(f, st, CallsBefore(rows, bearStart, lowest, index))
    decreases index - bearStart
  {
    if index == bearStart {
      CallsBeforeStart(f, st, rows, bearStart, lowest);
    } else {
      ReachedIsRun(f, st, rows, bearStart, lowest, index - 1);
      CallsBeforeStep(f, st, rows, bearStart, lowest, index);
    }
  }

  /** Before the first day the run holds only the supply call. */
  lemma CallsBeforeStart(f: Stepper, st: AllocState, rows: seq<Row>, bearStart: nat, lowest: nat)
    ensures RunBy(f, st, CallsBefore(rows, bearStart, lowest, bearStart)) == f(st, SetSupply(DOLLAR_COST_AVERAGE_SUPPLY.0))
  {
    RunSingle(f, st, SetSupply(DOLLAR_COST_AVERAGE_SUPPLY.0));
    assert CallsBefore(rows, bearStart, lowest, bearStart) == [SetSupply(DOLLAR_COST_AVERAGE_SUPPLY.0)];
  }

  /** The final status read closes the run, and the driver's result is read from its end state. */
  lemma DriverEnd(f: Stepper, st: AllocState, rows: seq<Row>, bearStart: nat, bullStart: nat, lowest: nat,
                  bearStartCoins: real, cashInvested: real, last: AllocState, next: Option<AllocState>,
                  status: (real, real), worstCash: real, worstCoins: real)
    requires lowest < |rows| && bullStart < |rows|
    requires Reached(f, st, rows, bearStart, lowest, if bearStart < bullStart then bullStart else bearStart) == Some(last)
    requires f(last, GetInvestStatus) == next
    requires next.Some? ==> status == Totals(next.value)
    requires worstCash == cashInvested + SeenCash(f, st, rows, bearStart, lowest, bullStart)
    requires worstCoins == bearStartCoins + SeenCoins(f, st, rows, bearStart, lowest, bullStart)
    ensures RunBy(f, st, DriverCalls(rows, bearStart, bullStart, lowest)) == next
    ensures next.None? ==> DriverOutcome(f, st, rows, bullStart, bearStart, bearStartCoins, lowest, cashInvested) == None
    ensures next.Some? ==>
      DriverOutcome(f, st, rows, bullStart, bearStart, bearStartCoins, lowest, cashInvested) ==
      Some(DriverResult(status.0, bearStartCoins + status.1, Average(status.0, status.1), worstCash, worstCoins))
  {
    var end := if bearStart < bullStart then bullStart else bearStart;
    ReachedIsRun(f, st, rows, bearStart, lowest, end);
    var before := CallsBefore(rows, bearStart, lowest, end);
    assert DriverCalls(rows, bearStart, bullStart, lowest) == before + [GetInvestStatus];
    RunAppend(f, st, before, [GetInvestStatus]);
    RunSingle(f, last, GetInvestStatus);
  }

  /** One day of the driver extends the run by that day's calls. */
  lemma DriverDay(f: Stepper, st: AllocState, rows: seq<Row>, bearStart: nat, lowest: nat, index: nat,
                  cur: AllocState, next: Option<AllocState>)
    requires bearStart <= index < |rows|
    requires RunBy(f, st, CallsBefore(rows, bearStart, lowest, index)) == Some(cur)
    requires RunBy(f, cur, DayCalls(rows, bearStart, lowest, index)) == next
    ensures RunBy(f, st, CallsBefore(rows, bearStart, lowest, index + 1)) == next
  {
    CallsBeforeStep(f, st, rows, bearStart, lowest, index + 1);
  }

  /** The run over the calls made before the next day continues the run before this one. */
  lemma CallsBeforeStep(f: Stepper, st: AllocState, rows: seq<Row>, bearStart: nat, lowest: nat, index: nat)
    requires bearStart < index <= |rows|
    ensures RunBy(f, st, CallsBefore(rows, bearStart, lowest, index)) ==
            ThenBy(f, RunBy(f, st, CallsBefore(rows, bearStart, lowest, index - 1)), DayCalls(rows, bearStart, lowest, index - 1))
  {
    var before, day := CallsBefore(rows, bearStart, lowest, index - 1), DayCalls(rows, bearStart, lowest, index - 1);
    CallsBeforeNext(rows, bearStart, lowest, index - 1);
    assert CallsBefore(rows, bearStart, lowest, index) == before + day;
    RunAppend(f, st, before, day);
  }

  /**
   * One day of the driver's loop: the run either stops, and so does the whole driver, or it
   * reaches the next day with the snapshot counted once, at the lowest day.
   */
  lemma DriverDayStep(f: Stepper, st: AllocState, rows: seq<Row>, bearStart: nat, bullStart: nat, lowest: nat,
                      index: nat, cur: AllocState, next: Option<AllocState>, snapshot: (real, real))
    requires bearStart <= index < bullStart < |rows| && lowest < |rows|
    requires Reached(f, st, rows, bearStart, lowest, index) == Some(cur)
    requires RunBy(f, cur, DayCalls(rows, bearStart, lowest, index)) == next
    requires next.Some? && index == lowest ==> snapshot == Totals(cur)
    ensures next.None? ==> RunBy(f, st, DriverCalls(rows, bearStart, bullStart, lowest)) == None
    ensures next.Some? ==> Reached(f, st, rows, bearStart, lowest, index + 1) == next
    ensures next.Some? ==>
      SeenCash(f, st, rows, bearStart, lowest, index + 1) ==
      SeenCash(f, st, rows, bearStart, lowest, index) + (if index == lowest then snapshot.0 else 0.0)
    ensures next.Some? ==>
      SeenCoins(f, st, rows, bearStart, lowest, index + 1) ==
      SeenCoins(f, st, rows, bearStart, lowest, index) + (if index == lowest then snapshot.1 else 0.0)
  {
    ReachedIsRun(f, st, rows, bearStart, lowest, index);
    DriverDaySeen(f, st, rows, bearStart, lowest, index, cur);
    if next.None? {
      DriverStopsAt(f, st, rows, bearStart, bullStart, lowest, index, cur);
    }
  }

  lemma CallsBeforeNext(rows: seq<Row>, bearStart: nat, lowest: nat, index: nat)
    requires bearStart <= index < |rows|
    ensures CallsBefore(rows, bearStart, lowest, index + 1) ==
            CallsBefore(rows, bearStart, lowest, index) + DayCalls(rows, bearStart, lowest, index)
  {
    var ticks, day := TickCalls(rows, bearStart, lowest, bearStart, index), DayCalls(rows, bearStart, lowest, index);
    assert TickCalls(rows, bearStart, lowest, bearStart, index + 1) == ticks + day;
    ConcatAssoc([SetSupply(DOLLAR_COST_AVERAGE_SUPPLY.0)], ticks, day);
  }

  /** The driver reads the totals on the lowest day and on no other. */
  lemma DriverDaySeen(f: Stepper, st: AllocState, rows: seq<Row>, bearStart: nat, lowest: nat, index: nat,
                      cur: AllocState)
    requires bearStart <= index < |rows| && lowest < |rows|
    requires RunBy(f, st, CallsBefore(rows, bearStart, lowest, index)) == Some(cur)
    ensures index == lowest ==>
      && SeenCash(f, st, rows, bearStart, lowest, index + 1) == SeenCash(f, st, rows, bearStart, lowest, index) + Totals(cur).0
      && SeenCoins(f, st, rows, bearStart, lowest, index + 1) == SeenCoins(f, st, rows, bearStart, lowest, index) + Totals(cur).1
    ensures index != lowest ==>
      && SeenCash(f, st, rows, bearStart, lowest, index + 1) == SeenCash(f, st, rows, bearStart, lowest, index)
      && SeenCoins(f, st, rows, bearStart, lowest, index + 1) == SeenCoins(f, st, rows, bearStart, lowest, index)
  {
    if index == lowest {
      assert SnapshotTotals(f, st, rows, bearStart, lowest) == Totals(cur);
    }
  }

  /** The driver's tick counter n ticks into the bear market: it counts up and wraps after a round. */
  function RoundTick(n: nat): nat
  {
    if n == 0 then 0
    else if RoundTick(n - 1) + 1 == DAYS_PER_ROUND then 0
    else RoundTick(n - 1) + 1
  }

  /** The driver's round counter, compared against the supply's round length, follows `RoundTick`. */
  lemma RoundTickAdvance(days: nat, ticks: nat)
    requires ticks == RoundTick(days)
    ensures RoundTick(days + 1) == if ticks + 1 == DOLLAR_COST_AVERAGE_SUPPLY.1 then 0 else ticks + 1
  {
    RoundTickNext(days);
  }

  lemma RoundTickNext(n: nat)
    ensures RoundTick(n + 1) == if RoundTick(n) + 1 == DAYS_PER_ROUND then 0 else RoundTick(n) + 1
  {
  }

  /** The counter is the number of ticks since the bear start, modulo the round length. */
  lemma {:induction false} RoundTickIsMod(n: nat)
    ensures RoundTick(n) == n % DAYS_PER_ROUND
  {
    if n > 0 {
      RoundTickIsMod(n - 1);
      RoundTicksStep(n - 1);
    }
  }

  /** The tick counter of the driver wraps to zero after a full round. */
  lemma RoundTicksStep(n: nat)
    ensures (n + 1) % DAYS_PER_ROUND == if n % DAYS_PER_ROUND + 1 == DAYS_PER_ROUND then 0 else n % DAYS_PER_ROUND + 1
  {
    var q, r := n / DAYS_PER_ROUND, n % DAYS_PER_ROUND;
    assert n + 1 == q * DAYS_PER_ROUND + (r + 1);
    if r + 1 == DAYS_PER_ROUND {
      assert n + 1 == (q + 1) * DAYS_PER_ROUND;
    }
  }

  /** A day whose calls stop the run stops the whole run. */
  lemma DriverStopsAt(f: Stepper, st: AllocState, rows: seq<Row>, bearStart: nat, bullStart: nat, lowest: nat,
                      index: nat, cur: AllocState)
    requires bearStart <= index < bullStart <= |rows|
    requires RunBy(f, st, CallsBefore(rows, bearStart, lowest, index)) == Some(cur)
    requires RunBy(f, cur, DayCalls(rows, bearStart, lowest, index)) == None
    ensures RunBy(f, st, DriverCalls(rows, bearStart, bullStart, lowest)) == None
  {
    DriverDay(f, st, rows, bearStart, lowest, index, cur, None);
    DriverStopsAfter(f, st, rows, bearStart, bullStart, lowest, index + 1);
  }

  /** Once the calls up to a day have stopped the run, the whole run has stopped. */
  lemma DriverStopsAfter(f: Stepper, st: AllocState, rows: seq<Row>, bearStart: nat, bullStart: nat, lowest: nat,
                         index: nat)
    requires bearStart < index <= bullStart <= |rows|
    requires RunBy(f, st, CallsBefore(rows, bearStart, lowest, index)) == None
    ensures RunBy(f, st, DriverCalls(rows, bearStart, bullStart, lowest)) == None
  {
    var head: seq<Call> := [SetSupply(DOLLAR_COST_AVERAGE_SUPPLY.0)];
    TickCallsSplit(rows, bearStart, lowest, bearStart, index, bullStart);
    var rest := TickCalls(rows, bearStart, lowest, index, bullStart) + [GetInvestStatus];
    assert DriverCalls(rows, bearStart, bullStart, lowest) == CallsBefore(rows, bearStart, lowest, index) + rest;
    RunAppend(f, st, CallsBefore(rows, bearStart, lowest, index), rest);
  }
}
