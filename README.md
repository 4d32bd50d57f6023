# AMM ladders and dollar-cost averaging, modelled in Dafny

The system compares ways of putting a budget into a coin during a bear market.

- **The AMM position `AMMBuyBear`.** A small automated-market-maker position that only
  buys.
  - It holds cash and coins and remembers the last price it traded at.
  - When the price falls to or below that last price, it walks down a staircase of rungs.
    Each rung is one `rebalance_step_percentage` lower than the one before.
  - On every rung it buys until cash is back at the share `rebalance_cash_ratio` of its value.
  - A companion function `exit_insane_bull` walks the staircase the other way and sells.
- **Three ladders of positions.** Each opens one new position per tick and funds it from a
  round budget of `DAYS_PER_ROUND` = 30 days.
  - `AMMCostAverage` in the test module: the *fixed popping* ladder. It retires expired
    positions and funds every position with the same amount.
  - `AMMCostAverage` in `cost_average`: the *imaginary* ladder. It counts expired positions
    as finished but keeps them trading.
  - `AMMCostAverageAuto`: the *self-correcting* ladder. Once positions have finished, it
    corrects each day's funding by how much the finished positions actually invested.
- **Two baselines.** `DollarCostAverage` spends a round's budget at the round's first price.
  `DailyDollarCostAverage` spreads it evenly over the round.
- **The driver `dollar_cost_average`.** It runs any of these allocators over the days of a
  bear market and reports what was invested.
- **The fluctuation analysis `Fluctuation::new`.** For every day it tabulates the lowest later
  price, over the whole rest of the history and within each of several look-ahead windows,
  and the drop ratio that low means.

How the model is written:

- Floating point is modelled as `real` and indices as `nat`.
- The queue of positions (a `VecDeque`) is a `seq<Position>`.
- Every object whose fields the program updates is a Dafny `class`. Its methods are proved
  against a function on a value snapshot of its fields: `Snap()` for a position, `State()`
  for an allocator.
- Every loop of the program is a `while` or `for` loop with its invariants.
- The properties are stated as lemmas about those functions.

Modules:

- `Common` (`common.dfy`): price rows, trade logs, the round constants, and sums.
- `Amm` (`amm.dfy`): the buy and sell staircases, `exit_insane_bull`, `AMMBuyBear`.
- `Ladder` (`ladder.dfy`): the ladder state, invariant and steps all three ladders share.
- `Tests` (`tests_ladder.dfy`): the fixed popping ladder.
- `AmmCostAverage` (`amm_cost_average.dfy`): the imaginary ladder.
- `AmmCostAverageAuto` (`amm_cost_average_auto.dfy`): the self-correcting ladder.
- `CostAverage` (`cost_average.dfy`): the baselines, the common call interface as a `Call`
  datatype, and the driver.
- `Fluctuation` (`fluctuation.dfy`): the price-drop tables.

How the driver is specified:

- The driver method takes any of the five allocator objects.
- `DriverCalls` is the exact sequence of calls the driver makes.
- `Run` is the allocator's value-level answer to a call sequence.
- The driver is proved to return `DriverOutcome` of that run and to leave the allocator in
  the state `Run` predicts.
- Lemmas then give closed forms for the baselines under the driver. They also show that the
  two fixed-funding ladders never stop on the calls the driver makes.

The test module repeats `exit_insane_bull`, `AMMBuyBear`, the two baselines and the driver
nearly verbatim (rust_code/src/tests.rs lines 21-56, 181-253, 127-179 and 70-124). Each is
modelled once and cited at its location under `amm/` or `cost_average/`.

Outcomes the program does not return normally are values in the model:

- A failed `assert!` or an index out of bounds is `Failed` or `Panics`, or a run that stops
  (`None`).
- The NaN sentinel of `past_amm_cash_utilization` is the constructor `NotYet`.
- A division whose result is not a finite number is `None` or `NotFinite`.

Two behaviours of the source follow from its code and are proved as lemmas:

- **Horizon 0.** With a horizon of 0 ticks, both popping ladders lag one position behind
  their own utilization assertion.
  - `Tests.FixedUtilizationFailsWithoutHorizon`: the fixed ladder's measurement fails on
    every tick after the first.
  - `AmmCostAverageAuto.AutoFundingPanicsWithoutHorizon`: the self-correcting ladder's
    funding panics.
  - With a horizon of at least one tick, neither happens (`...BetweenFeeds`,
    `AutoFundingNeverPanics`).
- **The imaginary ladder recounts.** Its expiry pass puts the cash back into every expired
  position, so the same positions are counted again on each later tick.
  - Its finished count n ticks after the horizon is 0 + 1 + ... + n
    (`AmmCostAverage.ImaginaryFinishedTri`).
  - Its own `past_amm_cash_utilization` assertion therefore holds only on the tick right
    after the horizon (`AmmCostAverage.ImaginaryUtilizationOutcome`).
  - The program never calls that function on this ladder, so a run never stops there.

## Model

| member | source | states |
|---|---|---|
| Common.SumAppend | rust_code/src/tests.rs:331-334 | the running sum of the put-cash list grows by each appended amount |
| Common.LoggedCoinsAppend | rust_code/src/amm/mod.rs:106 | the coins recorded in a trade log add up over concatenated logs |
| Common.LoggedCashAppend | rust_code/src/amm/mod.rs:106 | the cash recorded in a trade log (price times coins) adds up over concatenated logs |
| Amm.DownStepsDecrease | rust_code/src/amm/mod.rs:109 | one step down from a price at or above the floor strictly lowers the bound on the rungs left, so the buy staircase ends |
| Amm.BuyRungRebalances | rust_code/src/amm/mod.rs:96-107 | a buy rung keeps the value cash + coins·price; afterwards cash is at or below the target share; if cash was above target it falls to exactly ratio·value and coins rise, otherwise nothing changes; non-negative holdings stay non-negative |
| Amm.BuyRungLogged | rust_code/src/amm/mod.rs:99-107 | the log entry of a rung records exactly the cash spent and the coins bought |
| Amm.BuyStairsStep | rust_code/src/amm/mod.rs:95-110 | the staircase from a price at or above the floor is one rung followed by the staircase from one step lower, and its log starts with that rung's entry |
| Amm.BuyStairsEnds | rust_code/src/amm/mod.rs:95-110 | the staircase stops below the floor; from a price below the floor it changes nothing and logs nothing; otherwise it ends below where it started |
| Amm.BuyStairsUndershoot | rust_code/src/amm/mod.rs:109 | with a step of at most 100% the final price is at least floor·(1 − step): less than one step below the floor |
| Amm.BuyStairsLogged | rust_code/src/amm/mod.rs:95-110 | the cash spent and the coins bought over the whole staircase equal the sums of its log |
| Amm.BuyStairsEntries | rust_code/src/amm/mod.rs:99-107 | the staircase only buys: cash never rises, coins never fall, and every log entry buys a positive amount at a price between the floor and the start price |
| Amm.BuyStairsNonNegative | rust_code/src/amm/mod.rs:95-110 | with a non-negative cash ratio, non-negative cash and coins stay non-negative |
| Amm.BuyLastRung | rust_code/src/amm/mod.rs:95-110 | the lowest rung visited lies between the floor and the start price |
| Amm.BuyStairsStopsAfterLastRung | rust_code/src/amm/mod.rs:109-111 | the staircase ends exactly one step below its lowest rung |
| Amm.BuyStairsOnTarget | rust_code/src/amm/mod.rs:95-110 | after the staircase the holdings are at or below the target cash share at the lowest rung's price |
| Amm.UpStepsDecrease | rust_code/src/amm/mod.rs:35 | one step up from a positive price below the ceiling strictly lowers the bound on the rungs left, so the sell staircase ends |
| Amm.SellRungRebalances | rust_code/src/amm/mod.rs:24-33 | a sell rung keeps the value cash + coins·price; afterwards cash is at or above the target share; if cash was below target it rises to exactly ratio·value and coins fall, otherwise nothing changes |
| Amm.SellRungNonNegative | rust_code/src/amm/mod.rs:24-33 | with a cash ratio in [0, 1], selling never leaves negative cash or coins |
| Amm.SellRungLogged | rust_code/src/amm/mod.rs:27-33 | the log entry of a sell rung records exactly the cash taken out and, negated, the coins sold |
| Amm.SellStairsStep | rust_code/src/amm/mod.rs:23-36 | the sell staircase below the ceiling is one rung followed by the staircase from one step higher, its log starting with that rung's entry |
| Amm.SellStairsEnds | rust_code/src/amm/mod.rs:23-36 | the sell staircase stops at or above the ceiling and never below its start; from at or above the ceiling it changes nothing |
| Amm.SellStairsOvershoot | rust_code/src/amm/mod.rs:35 | started below the ceiling, the sell staircase ends less than one step above it |
| Amm.SellStairsLogged | rust_code/src/amm/mod.rs:23-36 | the cash taken out and the coins sold over the sell staircase equal the sums of its log |
| Amm.SellStairsEntries | rust_code/src/amm/mod.rs:27-33 | the sell staircase only sells: cash never falls, coins never rise, every log entry is negative and priced in [start, ceiling) |
| Amm.SellStairsNonNegative | rust_code/src/amm/mod.rs:23-36 | with a cash ratio in [0, 1], non-negative holdings stay non-negative |
| Amm.SellLastRung | rust_code/src/amm/mod.rs:23-36 | the highest sell rung lies in [start, ceiling) |
| Amm.SellStairsStopsAfterLastRung | rust_code/src/amm/mod.rs:35 | the sell staircase ends exactly one step above its highest rung |
| Amm.SellStairsOnTarget | rust_code/src/amm/mod.rs:23-36 | after selling, the holdings are at or above the target cash share at the highest rung's price |
| Amm.ExitInsaneBull | rust_code/src/amm/mod.rs:6-41 | when the finish price is not above the start nothing changes; otherwise cash, coins and price become the sell staircase's and the sell log is extended by exactly its entries |
| Amm.ExpirationResult | rust_code/src/amm/mod.rs:71-82 | a position is expired iff the tick has reached its expiry tick; an expired one hands out all its cash and coins and is left empty; a live one hands out nothing and is unchanged; last price and expiry never change; in both cases what is handed out plus what is left equals what the position held |
| Amm.ExpireOnlyOnce | rust_code/src/amm/mod.rs:71-82 | once a position has expired, every later check finds it expired and hands out nothing more |
| Amm.BuyAboveLastPriceIsNoOp | rust_code/src/amm/mod.rs:88-90 | a price above the last traded price buys nothing, logs nothing and leaves the position as it was |
| Amm.BuyAccounts | rust_code/src/amm/mod.rs:86-114 | `buy` returns exactly the cash its holdings lost and the coins they gained, both equal to the logged sums and non-negative, and every entry buys at a price between the new price and the last price |
| Amm.BuyMovesLastPrice | rust_code/src/amm/mod.rs:109-111 | `buy` keeps expiry and settings; when it trades, the new last price is below the new price, by at most one step |
| Amm.BuyKeepsHoldingsNonNegative | rust_code/src/amm/mod.rs:95-110 | a position with non-negative cash and coins and a non-negative cash ratio keeps them non-negative through `buy` |
| Amm.BuyAtLastPriceIsOneRung | rust_code/src/amm/mod.rs:95-111 | fed exactly its last price, a position buys one rung and moves its last price one step down |
| Amm.NewPositionFirstTrade | rust_code/src/amm/mod.rs:54-69 | a new position fed its own opening price spends the share 1 − ratio of its cash on coins at that price, logs that single purchase, and moves its last price one step down |
| Amm.BuyPosition | rust_code/src/amm/mod.rs:86-114 | the loop of `buy` on a position value yields `BuyResult`: the new position, the amounts spent and bought, and the log extended by its entries |
| Amm.AMMBuyBear.constructor | rust_code/src/amm/mod.rs:54-69 | a new position holds all the given cash and no coins, with the opening price as its last price |
| Amm.AMMBuyBear.CheckExpiration | rust_code/src/amm/mod.rs:71-82 | the flag, the amounts handed out and the new fields are those of `ExpirationResult` on the old fields |
| Amm.AMMBuyBear.Buy | rust_code/src/amm/mod.rs:86-114 | the new fields, the returned amounts and the log are those of `BuyResult` on the old fields |
| Ladder.BasicCashPerDay | rust_code/src/cost_average/amm_cost_average.rs:62-64 | the daily basic amount times the 30 days of a round is the round's budget |
| Ladder.FixedFunding | rust_code/src/cost_average/amm_cost_average.rs:104-112 | the funded amount times the share 1 − cashRatio that a new position invests equals the basic amount times the estimated use ratio |
| Ladder.LeadingExpired | rust_code/src/tests.rs:395-410 | the expiry pass stops at the first position that has not expired: every position before the count has expired, the one at the count (if any) has not |
| Ladder.TradeFloor | rust_code/src/tests.rs:421-432 | the trade loop, walking from the newest position back, stops at the first position whose last price is below the price; every newer position has last price at or above it |
| Ladder.TradeFloorAt | rust_code/src/tests.rs:421-432 | that stopping point is unique: any boundary with the same two properties is it |
| Ladder.TradedFrom | rust_code/src/tests.rs:421-432 | trading a suffix of the queue keeps the queue's length |
| Ladder.CashLoggedFrom | rust_code/src/tests.rs:429-430 | the cash the trade loop adds to `cash_invested` is the cash its log entries record, and is never negative |
| Ladder.CoinsLoggedFrom | rust_code/src/tests.rs:429-431 | the coins the trade loop adds to `coins_invested` are the coins its log entries record, and are never negative |
| Ladder.TradeDownAccounts | rust_code/src/tests.rs:421-432 | the trade pass's cash and coins equal the sums of its log and are non-negative |
| Ladder.TradeDownKeepsSchedule | rust_code/src/tests.rs:421-432 | the trade pass keeps the queue's length and every position's expiry tick and settings |
| Ladder.PushAndTradeIs | rust_code/src/tests.rs:412-435 | push, trade loop and tick advance, run one after the other, give the state `PushAndTrade` describes |
| Ladder.PushAndTradeInvests | rust_code/src/tests.rs:412-435 | after the push and trade pass the newest position is the new one traded at the price; the invested totals never fall and grow by exactly the sums of the new log entries |
| Ladder.PushAndTradeNewest | rust_code/src/tests.rs:412-432 | the queue grows by one and its newest position is the new position after `buy` at the price |
| Ladder.PushAndTradeNewestBuys | rust_code/src/tests.rs:412-432 | with positive funding and a cash ratio below 1, the new position ends holding ratio·cash, coins worth the rest at the price, and a last price one step down |
| Ladder.PoppingInitial | rust_code/src/tests.rs:280-309 | a new popping ladder with a usable configuration satisfies the ladder invariant |
| Ladder.PopsOneOnceLagged | rust_code/src/tests.rs:395-410 | under the invariant the expiry pass retires no position before tick max(1, horizon) and exactly one on every tick from then on |
| Ladder.PoppedCount | rust_code/src/tests.rs:395-410 | with a horizon of at least one tick, after the expiry pass the finished count is tick − horizon + 1 once tick ≥ horizon, and 0 before |
| Ladder.PopFundStep | rust_code/src/tests.rs:395-419 | after expiry and funding, the put-cash list has one entry per tick so far, the queue holds exactly the unfinished positions in creation order with their expiry ticks, and the totals are unchanged |
| Ladder.TradeDownScheduled | rust_code/src/tests.rs:421-432 | the trade pass keeps every position on its creation schedule |
| Ladder.PushAndTradeStep | rust_code/src/tests.rs:412-435 | the push and trade pass advance the tick, keep the put-cash list and finished count, add one scheduled position, and never lower the totals |
| Ladder.PopFundStepsPositive | rust_code/src/tests.rs:395-412 | after expiry and funding every queued position still has a positive step, so its buy loop ends |
| Ladder.PoppingStepWf | rust_code/src/tests.rs:394-436 | one `feed_price` of a popping ladder keeps the ladder invariant |
| Ladder.PopExpired | rust_code/src/tests.rs:395-410 | the expiry loop removes exactly the expired prefix, hands back the cash it held, counts it, and reports the cash of the last removed position |
| Ladder.TradePass | rust_code/src/tests.rs:421-432 | the trade loop over the queue yields `TradeDown`: the traded queue, the cash and coins it invested, and the log extended by its entries |
| Ladder.CashUnusedOf | rust_code/src/tests.rs:315-324 | the unused cash is the reserve plus the cash every live position still holds |
| Ladder.Measure | rust_code/src/tests.rs:337-340 | invested cash is put cash minus returned cash; the average times the count is the invested cash; the over-invest factor exists iff put cash is nonzero and the cash ratio is not 1, and then factor·put·(1 − cashRatio) is the invested cash |
| Ladder.SumFirst | rust_code/src/tests.rs:331-334 | the summing loop returns the sum of the first n put-cash entries |
| Tests.FixedFeedFunds | rust_code/src/tests.rs:394-436 | a feed keeps the invariant, advances the tick, records the price, appends the fixed amount to the put-cash list once, and books the cash of the retired positions as returned and into the reserve |
| Tests.FixedFeedTradesNewest | rust_code/src/tests.rs:412-432 | with positive funding and a cash ratio below 1, the position funded on a tick trades on that tick: it spends 1 − ratio of its cash at the price |
| Tests.FixedUtilizationBetweenFeeds | rust_code/src/tests.rs:326-343 | with a horizon of at least one tick, the measurement is the sentinel up to the horizon; after it, its assertion holds (finished = tick − horizon) and it measures those positions |
| Tests.FixedUtilizationFailsWithoutHorizon | rust_code/src/tests.rs:335 | with a horizon of 0, one fewer than tick − horizon positions have finished, so the assertion fails on every tick after the first |
| Tests.AMMCostAverage.constructor | rust_code/src/tests.rs:280-309 | the new ladder has the given settings and the empty initial state, and satisfies its invariant iff the configuration is usable |
| Tests.AMMCostAverage.CashUnused | rust_code/src/tests.rs:315-324 | the reserve plus the cash of the live positions |
| Tests.AMMCostAverage.PastAmmCashUtilization | rust_code/src/tests.rs:326-343 | the sentinel at or before the horizon; a failure when the list is too short or the finished count is not tick − horizon; otherwise the measurement of the first tick − horizon positions |
| Tests.AMMCostAverage.AmmCashToday | rust_code/src/tests.rs:364-382 | funds the fixed amount, books the basic amount minus it into the reserve, and appends it to the put-cash list |
| Tests.AMMCostAverage.SetSupply | rust_code/src/tests.rs:386-389 | sets the round budget, clears the reserve, changes nothing else and keeps the invariant |
| Tests.AMMCostAverage.StartNewRound | rust_code/src/tests.rs:390-393 | succeeds iff the round lasts 30 ticks |
| Tests.AMMCostAverage.FeedPrice | rust_code/src/tests.rs:394-436 | the new state is `FixedFeed` of the old one, and the invariant holds again |
| Tests.AMMCostAverage.PopExpiredAmms | rust_code/src/tests.rs:395-410 | the new state is the old one after the expiry pass |
| Tests.AMMCostAverage.PushAndTradeAmms | rust_code/src/tests.rs:412-435 | the new state is `PushAndTrade` of the old one |
| Tests.AMMCostAverage.TradeAmms | rust_code/src/tests.rs:421-435 | the queue is traded down, the totals grow by the amounts it invested, the log is extended, the tick advances, and the price is recorded |
| Tests.AMMCostAverage.GetInvestStatus | rust_code/src/tests.rs:439-442 | the invested totals, which the invariant keeps non-negative |
| AmmCostAverage.ImaginaryFinishedTri | rust_code/src/cost_average/amm_cost_average.rs:126-140 | with a horizon of at least one tick, n ticks after the horizon the finished count is 0 + 1 + … + n |
| AmmCostAverage.ImaginaryFinishedBeforeHorizon | rust_code/src/cost_average/amm_cost_average.rs:126-140 | up to the horizon no position has been counted as finished |
| AmmCostAverage.TriExceeds | rust_code/src/cost_average/amm_cost_average.rs:86-89 | from two ticks after the horizon the count exceeds tick − horizon |
| AmmCostAverage.ImaginaryInitial | rust_code/src/cost_average/amm_cost_average.rs:31-60 | a new imaginary ladder with a usable configuration satisfies its invariant |
| AmmCostAverage.ImaginaryStepsPositive | rust_code/src/cost_average/amm_cost_average.rs:143-149 | under the invariant every queued position has a positive step |
| AmmCostAverage.LeadingExpiredScheduled | rust_code/src/cost_average/amm_cost_average.rs:126-140 | on a queue created one position per tick, the expiry pass counts exactly the positions created up to tick − horizon |
| AmmCostAverage.ImaginaryCounts | rust_code/src/cost_average/amm_cost_average.rs:126-140 | under the invariant the expiry pass counts `Recount(tick, horizon)` positions: 0 before the horizon, then tick − horizon + 1 (all positions when the horizon is 0) |
| AmmCostAverage.ImaginaryFeedFunds | rust_code/src/cost_average/amm_cost_average.rs:123-166 | a feed keeps the invariant, removes no position, adds one, appends the fixed amount once, and books the cash of `Recount` expired positions as returned and into the reserve |
| AmmCostAverage.ImaginaryUtilizationOutcome | rust_code/src/cost_average/amm_cost_average.rs:77-102 | with a horizon of at least one tick, the measurement is the sentinel up to the horizon, succeeds with one finished position on the tick after it, and fails on every later tick |
| AmmCostAverage.RestoringExpiryPass | rust_code/src/cost_average/amm_cost_average.rs:126-140 | the expiry loop with its restore leaves the queue exactly as it was, counts the expired prefix, hands back the cash it held, and reports the last one's cash |
| AmmCostAverage.LeadingExpiredFrom | rust_code/src/cost_average/amm_cost_average.rs:126-140 | a prefix of expired positions followed by a live one (or the end) is what the expiry pass counts |
| AmmCostAverage.AMMCostAverage.constructor | rust_code/src/cost_average/amm_cost_average.rs:31-60 | the new ladder has the given settings and the empty initial state, and satisfies its invariant iff the configuration is usable |
| AmmCostAverage.AMMCostAverage.CashUnused | rust_code/src/cost_average/amm_cost_average.rs:66-75 | the reserve plus the cash of the queued positions |
| AmmCostAverage.AMMCostAverage.PastAmmCashUtilization | rust_code/src/cost_average/amm_cost_average.rs:77-102 | the sentinel at or before the horizon; a failure when the finished count exceeds the list or differs from tick − horizon; otherwise the measurement of the finished positions |
| AmmCostAverage.AMMCostAverage.AmmCashToday | rust_code/src/cost_average/amm_cost_average.rs:104-112 | funds the fixed amount, books the basic amount minus it into the reserve, and appends it to the put-cash list |
| AmmCostAverage.AMMCostAverage.SetSupply | rust_code/src/cost_average/amm_cost_average.rs:116-119 | sets the round budget, clears the reserve and keeps the invariant |
| AmmCostAverage.AMMCostAverage.StartNewRound | rust_code/src/cost_average/amm_cost_average.rs:120-122 | succeeds iff the round lasts 30 ticks |
| AmmCostAverage.AMMCostAverage.FeedPrice | rust_code/src/cost_average/amm_cost_average.rs:123-166 | the new state is `ImaginaryFeed` of the old one, and the invariant holds again |
| AmmCostAverage.AMMCostAverage.CheckExpiredAmms | rust_code/src/cost_average/amm_cost_average.rs:126-140 | the new state is the old one after the counting expiry pass |
| AmmCostAverage.AMMCostAverage.PushAndTradeAmms | rust_code/src/cost_average/amm_cost_average.rs:142-165 | the new state is `PushAndTrade` of the old one |
| AmmCostAverage.AMMCostAverage.TradeAmms | rust_code/src/cost_average/amm_cost_average.rs:151-165 | the queue is traded down, the totals grow by the amounts it invested, the log is extended, the tick advances and the price is recorded |
| AmmCostAverage.AMMCostAverage.GetInvestStatus | rust_code/src/cost_average/amm_cost_average.rs:169-171 | the invested totals, which the invariant keeps non-negative |
| AmmCostAverageAuto.CorrectedFunding | rust_code/src/cost_average/amm_cost_average_auto.rs:139-176 | the corrected funding, whenever it is an amount, is never negative |
| AmmCostAverageAuto.AutoFunding | rust_code/src/cost_average/amm_cost_average_auto.rs:129-185 | at or before the horizon it is the fixed amount; after it, whenever it is an amount, it is never negative |
| AmmCostAverageAuto.ScaledSign | rust_code/src/cost_average/amm_cost_average_auto.rs:156 | with a cash ratio below 1 and a positive use ratio, scaling an adjustment keeps its sign |
| AmmCostAverageAuto.CorrectedOnTarget | rust_code/src/cost_average/amm_cost_average_auto.rs:141-156 | when the finished positions invested exactly what was expected, with factor·useRatio = 1, the correction leaves the fixed amount unchanged |
| AmmCostAverageAuto.CorrectedRaisesWhenBehind | rust_code/src/cost_average/amm_cost_average_auto.rs:141-156 | when they invested less than expected and factor·useRatio is in (0, 1], the corrected amount is at least the fixed one |
| AmmCostAverageAuto.CorrectedLowersWhenAhead | rust_code/src/cost_average/amm_cost_average_auto.rs:141-156 | when they invested more than expected and factor·useRatio ≥ 1, the corrected amount is at most the fixed one |
| AmmCostAverageAuto.AutoFundingNeverPanics | rust_code/src/cost_average/amm_cost_average_auto.rs:133-138 | with a horizon of at least one tick, the assertion finished = tick − horizon + 1 holds on every feed, and so does the utilization's own assertion |
| AmmCostAverageAuto.AutoFundingPanicsWithoutHorizon | rust_code/src/cost_average/amm_cost_average_auto.rs:138 | with a horizon of 0, the funding of every feed after the first panics |
| AmmCostAverageAuto.AutoUtilizationBetweenFeeds | rust_code/src/cost_average/amm_cost_average_auto.rs:83-108 | with a horizon of at least one tick, between feeds the measurement is the sentinel up to the horizon and afterwards measures tick − horizon finished positions |
| AmmCostAverageAuto.AutoUtilizationFailsWithoutHorizon | rust_code/src/cost_average/amm_cost_average_auto.rs:92-95 | with a horizon of 0 the measurement fails between feeds on every tick after the first |
| AmmCostAverageAuto.AutoFundingRaisesWhenBehind | rust_code/src/cost_average/amm_cost_average_auto.rs:129-185 | on the ladder, when the finished positions invested at most the expected amount and factor·useRatio is in (0, 1], the day's funding is at least the fixed amount |
| AmmCostAverageAuto.AutoFundingLowersWhenAhead | rust_code/src/cost_average/amm_cost_average_auto.rs:129-185 | on the ladder, when they invested at least the expected amount and factor·useRatio ≥ 1, the day's funding is at most the fixed amount |
| AmmCostAverageAuto.FixedFundingNonNegative | rust_code/src/cost_average/amm_cost_average_auto.rs:130-131 | with a cash ratio below 1, a positive use ratio and a non-negative budget, the uncorrected amount is non-negative |
| AmmCostAverageAuto.AutoFeedFunds | rust_code/src/cost_average/amm_cost_average_auto.rs:197-239 | a funded feed keeps the invariant, advances the tick, appends the day's funding once, books retired cash as returned and into the reserve, and after the horizon funds a non-negative amount |
| AmmCostAverageAuto.AutoFeedIsFixedBeforeHorizon | rust_code/src/cost_average/amm_cost_average_auto.rs:133 | at or before the horizon a feed of this ladder is exactly a feed of the fixed popping ladder |
| AmmCostAverageAuto.CorrectCashDay | rust_code/src/cost_average/amm_cost_average_auto.rs:139-176 | the correction code yields `CorrectedFunding` of the utilization it is given |
| AmmCostAverageAuto.AMMCostAverageAuto.constructor | rust_code/src/cost_average/amm_cost_average_auto.rs:35-66 | the new ladder has the given settings and reinvest percentage and the empty initial state, and satisfies its invariant iff the configuration is usable |
| AmmCostAverageAuto.AMMCostAverageAuto.CashUnused | rust_code/src/cost_average/amm_cost_average_auto.rs:72-81 | the reserve plus the cash of the live positions |
| AmmCostAverageAuto.AMMCostAverageAuto.PastAmmCashUtilization | rust_code/src/cost_average/amm_cost_average_auto.rs:83-108 | the sentinel at or before the horizon; a failure when the finished count exceeds the list or is neither tick − horizon nor one more; otherwise the measurement of the finished positions |
| AmmCostAverageAuto.AMMCostAverageAuto.AmmCashToday | rust_code/src/cost_average/amm_cost_average_auto.rs:129-185 | the result is `AutoFunding` of the state; when it is an amount the reserve and put-cash list are booked with it, otherwise nothing changes |
| AmmCostAverageAuto.AMMCostAverageAuto.CashDay | rust_code/src/cost_average/amm_cost_average_auto.rs:130-176 | the day's funding before any booking is `AutoFunding` of the state |
| AmmCostAverageAuto.AMMCostAverageAuto.SetSupply | rust_code/src/cost_average/amm_cost_average_auto.rs:189-192 | sets the round budget, clears the reserve and keeps the invariant |
| AmmCostAverageAuto.AMMCostAverageAuto.StartNewRound | rust_code/src/cost_average/amm_cost_average_auto.rs:193-196 | succeeds iff the utilization measurement does not fail and the round lasts 30 ticks |
| AmmCostAverageAuto.AMMCostAverageAuto.FeedPrice | rust_code/src/cost_average/amm_cost_average_auto.rs:197-239 | reports the funding of the state after the expiry pass; when it is an amount the new state is `AutoFeed` of the old one and the invariant holds again; otherwise the feed stops after the expiry pass |
| AmmCostAverageAuto.AMMCostAverageAuto.PopExpiredAmms | rust_code/src/cost_average/amm_cost_average_auto.rs:198-213 | the new state is the old one after the expiry pass |
| AmmCostAverageAuto.AMMCostAverageAuto.PushAndTradeAmms | rust_code/src/cost_average/amm_cost_average_auto.rs:215-238 | the new state is `PushAndTrade` of the old one |
| AmmCostAverageAuto.AMMCostAverageAuto.TradeAmms | rust_code/src/cost_average/amm_cost_average_auto.rs:224-238 | the queue is traded down, the totals grow by the amounts it invested, the log is extended, the tick advances and the price is recorded |
| AmmCostAverageAuto.AMMCostAverageAuto.GetInvestStatus | rust_code/src/cost_average/amm_cost_average_auto.rs:242-245 | the invested totals, present iff the utilization measurement does not fail, and non-negative under the invariant |
| CostAverage.DollarCostAverage.constructor | rust_code/src/cost_average/mod.rs:78-84 | the derived default: all zero, so a feed before any round already invests |
| CostAverage.DollarCostAverage.SetSupply | rust_code/src/cost_average/mod.rs:87-89 | the state is `DcaStep` of the old one on that call: only the round budget changes |
| CostAverage.DollarCostAverage.StartNewRound | rust_code/src/cost_average/mod.rs:90-92 | the state is `DcaStep` of the old one on that call: the round's purchase is armed |
| CostAverage.DollarCostAverage.FeedPrice | rust_code/src/cost_average/mod.rs:93-99 | the state is `DcaStep` of the old one on that call: the armed purchase spends the whole budget at this price, once; an unarmed feed, at any price including 0, changes nothing |
| CostAverage.DollarCostAverage.GetInvestStatus | rust_code/src/cost_average/mod.rs:102-104 | the invested totals |
| CostAverage.DailyDollarCostAverage.constructor | rust_code/src/cost_average/mod.rs:107-113 | the derived default: all zero |
| CostAverage.DailyDollarCostAverage.SetSupply | rust_code/src/cost_average/mod.rs:116-118 | the state is `DailyStep` of the old one on that call: only the round budget changes |
| CostAverage.DailyDollarCostAverage.StartNewRound | rust_code/src/cost_average/mod.rs:119-121 | the state is `DailyStep` of the old one on that call: the round length is recorded |
| CostAverage.DailyDollarCostAverage.FeedPrice | rust_code/src/cost_average/mod.rs:122-125 | the state is `DailyStep` of the old one on that call: a share budget/length is spent at the price |
| CostAverage.DailyDollarCostAverage.GetInvestStatus | rust_code/src/cost_average/mod.rs:128-130 | the invested totals |
| CostAverage.FixedCall | rust_code/src/tests.rs:385-443 | a call the fixed ladder answers keeps its invariant, and only a feed changes the invested totals |
| CostAverage.ImaginaryCall | rust_code/src/cost_average/amm_cost_average.rs:115-172 | a call the imaginary ladder answers keeps its invariant, and only a feed changes the invested totals |
| CostAverage.AutoCall | rust_code/src/cost_average/amm_cost_average_auto.rs:188-246 | a call the self-correcting ladder answers keeps its invariant, and only a feed changes the invested totals |
| CostAverage.StepKeeps | rust_code/src/cost_average/mod.rs:13-19 | for every allocator kind, a call that goes through keeps the state's invariant and only `feed_price` changes what `get_invest_status` reports |
| CostAverage.StepOfImplements | rust_code/src/cost_average/mod.rs:13-19 | the step function of a kind answers every call as that kind does |
| CostAverage.RunKeeps | rust_code/src/cost_average/mod.rs:13-19 | a non-empty run of calls that goes through ends in a state that keeps the invariant |
| CostAverage.RunSingle | rust_code/src/cost_average/mod.rs:13-19 | running one call is answering it |
| CostAverage.RunAppend | rust_code/src/cost_average/mod.rs:36-53 | running two call sequences one after the other is running their concatenation, and a stopped run stays stopped |
| CostAverage.DayCallsParts | rust_code/src/cost_average/mod.rs:38-52 | the calls of one day are the snapshot read (on the lowest day), then the round start (on a round's first day), then the feed of that day's price |
| CostAverage.TickCallsSplit | rust_code/src/cost_average/mod.rs:38-53 | the calls of days from..end are those of from..mid followed by those of mid..end |
| CostAverage.Prices | rust_code/src/cost_average/mod.rs:52 | the prices of days lo..hi in order |
| CostAverage.FeedsAppend | rust_code/src/cost_average/mod.rs:52 | the prices fed by concatenated call sequences are the concatenation of their prices |
| CostAverage.SingleCallCounts | rust_code/src/cost_average/mod.rs:45-52 | a single call feeds its price iff it is a feed, and starts a round iff it is a round start |
| CostAverage.ScheduleCounts | rust_code/src/cost_average/mod.rs:39-52 | a day's calls feed exactly that day's price and start a round iff the day starts one |
| CostAverage.DayCallsFeeds | rust_code/src/cost_average/mod.rs:52 | the calls of a day feed exactly that day's price |
| CostAverage.TickCallsFeeds | rust_code/src/cost_average/mod.rs:38-53 | the calls of the bear market feed the prices of its days, each once and in order |
| CostAverage.DriverFeedsEachDayOnce | rust_code/src/cost_average/mod.rs:22-76 | the driver feeds the allocator the price of every day from the bear start to the bull start, once each and in order, and nothing else |
| CostAverage.SnapshotFollowsEarlierDays | rust_code/src/cost_average/mod.rs:38-43 | on the lowest day the totals are read before that day's price is fed, after the prices of all earlier days |
| CostAverage.RoundsClosedForm | rust_code/src/cost_average/mod.rs:44-50 | the number of round starts over n days is ⌈n / 30⌉ |
| CostAverage.RoundStartsAppend | rust_code/src/cost_average/mod.rs:44-46 | round starts add up over concatenated call sequences |
| CostAverage.TickCallsRounds | rust_code/src/cost_average/mod.rs:44-50 | the calls of the bear market start one round on every 30th day, beginning with the first |
| CostAverage.RoundStartsAfterDay | rust_code/src/cost_average/mod.rs:44-46 | a day's calls add one round start iff the day starts a round |
| CostAverage.DriverStartsRounds | rust_code/src/cost_average/mod.rs:22-76 | the driver starts ⌈(bull − bear) / 30⌉ rounds, none for an empty bear market |
| CostAverage.DriverCallsRoundStarts | rust_code/src/cost_average/mod.rs:22-76 | the round starts of the driver's calls are those of its daily calls |
| CostAverage.RunDay | rust_code/src/cost_average/mod.rs:38-52 | running a day's calls is the snapshot, then the round start, then the feed |
| CostAverage.RunTicksStep | rust_code/src/cost_average/mod.rs:38-53 | running the calls up to a day is running those up to the day before, then that day's |
| CostAverage.RunDriver | rust_code/src/cost_average/mod.rs:32-54 | the driver's run is `set_supply`, the daily calls, and the final status read |
| CostAverage.DcaDay | rust_code/src/cost_average/mod.rs:93-99 | on a day of the bear market the lump-sum allocator buys with the whole budget iff the day starts a round |
| CostAverage.DcaAfterTicksStep | rust_code/src/cost_average/mod.rs:93-99 | the lump-sum state after the days up to `end` is that after the days before, advanced by the last day |
| CostAverage.DcaTicks | rust_code/src/cost_average/mod.rs:38-53 | the run of the bear market's calls on the lump-sum allocator never stops and ends in the state its day-by-day recurrence predicts |
| CostAverage.DcaUnderDriver | rust_code/src/cost_average/mod.rs:22-76 | under the driver the lump-sum allocator invests 2000 per round, ⌈days / 30⌉ times, and buys the coins of each round's first price |
| CostAverage.DcaAfterBear | rust_code/src/cost_average/mod.rs:93-99 | closed form of the lump-sum recurrence over the bear market: budget × ⌈days / 30⌉ cash and the coins bought at the first price of each round |
| CostAverage.DailyDay | rust_code/src/cost_average/mod.rs:119-125 | on a day of the bear market the daily allocator spends budget/30 at that day's price |
| CostAverage.DailyAfterTicksStep | rust_code/src/cost_average/mod.rs:122-125 | the daily state after the days up to `end` is that after the days before, advanced by the last day |
| CostAverage.DailyTicks | rust_code/src/cost_average/mod.rs:38-53 | the run of the bear market's calls on the daily allocator never stops and ends in the state its recurrence predicts |
| CostAverage.DailyUnderDriver | rust_code/src/cost_average/mod.rs:22-76 | under the driver the daily allocator invests 2000/30 per day of the bear market and buys budget/30 worth of coins at every day's price |
| CostAverage.DailyAfterBear | rust_code/src/cost_average/mod.rs:122-125 | closed form of the daily recurrence: days × budget/30 cash, the sum of budget/30/price coins |
| CostAverage.FixedLaddersComplete | rust_code/src/cost_average/mod.rs:13-19 | the fixed and imaginary ladders answer every sequence of positive feeds and 30-tick rounds without stopping |
| CostAverage.FixedLaddersCompleteUpTo | rust_code/src/cost_average/mod.rs:13-19 | every prefix of such a run goes through and keeps the invariant |
| CostAverage.TickCallsAccepted | rust_code/src/cost_average/mod.rs:38-53 | with positive prices, the driver's daily calls are only positive feeds, 30-tick round starts and status reads |
| CostAverage.FixedLaddersCompleteUnderDriver | rust_code/src/cost_average/mod.rs:22-76 | with positive prices, the driver never stops on the fixed or the imaginary ladder |
| CostAverage.DcaFeedStops | rust_code/src/cost_average/mod.rs:93-99 | a lump-sum feed that is not armed goes through at any price and changes nothing; a feed stops exactly when it is armed and the price is zero |
| CostAverage.ApplyDca | rust_code/src/cost_average/mod.rs:86-105 | one call on a lump-sum object changes its state as `Step` does and reports its totals on a status read |
| CostAverage.ApplyDaily | rust_code/src/cost_average/mod.rs:115-131 | one call on a daily object changes its state as `Step` does and reports its totals on a status read |
| CostAverage.ApplyFixed | rust_code/src/tests.rs:385-443 | one call on a fixed-ladder object changes its state as `Step` does, and stops exactly where `Step` does |
| CostAverage.ApplyImaginary | rust_code/src/cost_average/amm_cost_average.rs:115-172 | one call on an imaginary-ladder object changes its state as `Step` does, and stops exactly where `Step` does |
| CostAverage.ApplyAuto | rust_code/src/cost_average/amm_cost_average_auto.rs:188-246 | one call on a self-correcting object changes its state as `Step` does, and stops exactly where `Step` does |
| CostAverage.Apply | rust_code/src/cost_average/mod.rs:13-19 | one call on any allocator object follows its kind's step, keeps the invariant, and a status read reports unchanged totals |
| CostAverage.FeedDay | rust_code/src/cost_average/mod.rs:38-52 | one iteration of the driver's loop runs exactly that day's calls, and on the lowest day reads the totals from before the day |
| CostAverage.FeedBearMarket | rust_code/src/cost_average/mod.rs:36-53 | the loop feeds every bear-market day; when it completes, the state is the run of those days and the worst-case values add the totals read on the lowest day; when it stops, so does the driver's run |
| CostAverage.DollarCostAverageDriver | rust_code/src/cost_average/mod.rs:22-76 | returns `DriverOutcome` (invested cash, final coins, average price, worst-case cash and coins) of the run of its calls, and leaves the allocator in the state that run ends in |
| CostAverage.DriverStopped | rust_code/src/cost_average/mod.rs:22-76 | when the run of the driver's calls stops, so does the driver |
| CostAverage.ReachedIsRun | rust_code/src/cost_average/mod.rs:36-53 | the state reached before a day is the run of the calls before that day |
| CostAverage.CallsBeforeStart | rust_code/src/cost_average/mod.rs:32 | before the first day only `set_supply` has been called |
| CostAverage.DriverEnd | rust_code/src/cost_average/mod.rs:54-75 | after the loop the final status read completes the run and determines the returned values |
| CostAverage.DriverDay | rust_code/src/cost_average/mod.rs:38-52 | the run up to the next day is the run up to this day followed by this day's calls |
| CostAverage.DriverDayStep | rust_code/src/cost_average/mod.rs:38-53 | the loop invariant is kept over one day: a stop ends the driver's run, otherwise the reached state and the worst-case sums advance by the day |
| CostAverage.CallsBeforeNext | rust_code/src/cost_average/mod.rs:38-53 | the calls before the next day are those before this day plus this day's |
| CostAverage.DriverDaySeen | rust_code/src/cost_average/mod.rs:39-43 | the worst-case sums grow by the totals reached before the lowest day on that day, and by nothing on any other day |
| CostAverage.RoundTickAdvance | rust_code/src/cost_average/mod.rs:47-50 | the round counter goes up by one a day and wraps to 0 at 30 |
| CostAverage.RoundTickNext | rust_code/src/cost_average/mod.rs:47-50 | the same wrap stated on the counter of any day |
| CostAverage.RoundTickIsMod | rust_code/src/cost_average/mod.rs:44-50 | the round counter on day n of the bear market is n mod 30 |
| CostAverage.DriverStopsAt | rust_code/src/cost_average/mod.rs:36-53 | a stop on any day of the bear market stops the whole run |
| CostAverage.DriverStopsAfter | rust_code/src/cost_average/mod.rs:36-53 | once the run has stopped before a day, it stays stopped |
| Fluctuation.MinPriceLower | rust_code/src/cost_average/fluctuation.rs:38-42 | the running low is at most every price of the range |
| Fluctuation.MinPriceAt | rust_code/src/cost_average/fluctuation.rs:38-42 | the running low is the price of some day of the range |
| Fluctuation.MinPriceIsMin | rust_code/src/cost_average/fluctuation.rs:38-42 | the running low is the minimum of the range |
| Fluctuation.MinPriceWiden | rust_code/src/cost_average/fluctuation.rs:54-67 | widening a window can only lower its low |
| Fluctuation.LowestTableIsMinimum | rust_code/src/cost_average/fluctuation.rs:35-70 | row i of `later_lowest_price` has one entry per window plus one; the first is the minimum price from day i to the end, entry j + 1 the minimum over the days i .. i + window j − 1 that exist |
| Fluctuation.DropTableIsRatio | rust_code/src/cost_average/fluctuation.rs:43 | every drop-ratio entry is 1 − low / day's price, with the shape of the low table |
| Fluctuation.LongerWindowLower | rust_code/src/cost_average/fluctuation.rs:54-68 | a longer window's low is at most a shorter one's, and the low to the end is at most any window's |
| Fluctuation.DropRatioBounds | rust_code/src/cost_average/fluctuation.rs:43 | with positive prices every drop ratio lies in [0, 1) |
| Fluctuation.StackSorted | rust_code/src/cost_average/fluctuation.rs:45-52 | the monotonic stack holds prices non-decreasing and days strictly decreasing from bottom to top |
| Fluctuation.StackSorted0 | rust_code/src/cost_average/fluctuation.rs:45-52 | the bottom of the stack holds its lowest price |
| Fluctuation.StackPush | rust_code/src/cost_average/fluctuation.rs:45-52 | popping every higher price and pushing today keeps the stack invariant |
| Fluctuation.WindowLowest | rust_code/src/cost_average/fluctuation.rs:60-66 | the first stack entry inside a window holds the window's minimum price |
| Fluctuation.LowestRowIs | rust_code/src/cost_average/fluctuation.rs:42-67 | the suffix low followed by the window lows is the table row |
| Fluctuation.DropRowIs | rust_code/src/cost_average/fluctuation.rs:43-68 | the ratios pushed for a day are the drop row of its lows |
| Fluctuation.FromStep | rust_code/src/cost_average/fluctuation.rs:35-70 | each pass of the outer loop fills exactly row `index` of both tables |
| Fluctuation.FromEnds | rust_code/src/cost_average/fluctuation.rs:21-70 | the tables start as all-empty rows and, once the loop reaches day 0, are the full tables |
| Fluctuation.New | rust_code/src/cost_average/fluctuation.rs:11-78 | keeps the rows and windows and builds both tables exactly: the lows of each day's suffix and windows, and their drop ratios; an empty history gives empty tables |
| Fluctuation.PushToday | rust_code/src/cost_average/fluctuation.rs:45-52 | pops the higher prices, pushes today, keeps the stack invariant, and leaves every window pointer valid below the new top |
| Fluctuation.ScanToWindow | rust_code/src/cost_average/fluctuation.rs:60-63 | walks a pointer up to the first stack entry inside the window, without running off the stack |
| Fluctuation.PopAbove | rust_code/src/cost_average/fluctuation.rs:45-51 | keeps a prefix of the stack: its top is at most today's price and the first dropped entry was above it |
| Fluctuation.WindowLows | rust_code/src/cost_average/fluctuation.rs:54-69 | the window loop returns every window's minimum and drop ratio for the day and updated pointers that stay inside each window |

## Left out

- Printing: `println!` calls, `log_cash_unused`, `Fluctuation::log` and the driver's two printed
  reports (with `begin_total_asset` and the 300-price scenario) produce no state and are not modelled.
- The test harness `test_tsv_file_read` (rust_code/src/tests.rs:445-704), which reads price files
  and prints comparisons, and the module file lib.rs are not part of this model.
- Floating point: `f64` is modelled as exact `real`. Rounding, overflow, infinities and NaN are
  not modelled. A NaN sentinel becomes `NotYet`. A division without a finite value becomes `None`
  or `NotFinite`, and a run stops there.
- The trait `CostAverageMethodTrait` is modelled by the `Call` datatype and the `Allocator`
  datatype over the five classes, not by a Dafny trait.
- The `VecDeque` of positions is a `seq` of position values. The positions in a queue are not
  aliased objects.
- The FIXME-commented correction in the test module's `amm_cash_today` is dead code and is not modelled.
- `last_amm_uninvested` is updated as in the source but no property is stated about it.
- Non-positive prices are outside the model for the three ladders: their feed methods require a
  positive price, and the call-level step (`Step`) stops (`None`) on a ladder feed whose price is not
  positive. The baselines take any price their division allows. The daily baseline stops only on a
  zero price or a zero round length. The lump-sum baseline stops only on a zero price while a
  purchase is armed. The driver takes rows with any prices.
- A configuration with a cash ratio of 1 or a step that is not positive, where the source divides by
  zero or loops forever, is excluded: `ConfigOk` is required by the ladders' invariants.
- ExitInsaneBull: when it sells (the finish price above the start price), requires a positive start
  price and a positive step. With a zero step or a zero start price the source's loop never ends.
  The odd parameters on which that loop does end are not modelled: a step below -2 (the price
  alternates in sign and grows), a negative start price with a negative step.
- BuyPosition: requires a positive new price and a positive step. With a zero step or a zero last
  price the source's loop never ends. The odd parameters on which that loop does end are not
  modelled: a step above 1 with a non-positive new price, and other negative prices or steps.
- CostAverage.DollarCostAverage.FeedPrice: requires a nonzero price when a purchase is armed
  (`tick == 0`), the one case in which the source divides by the price; a division by zero there
  gives an infinite amount.
- CostAverage.DailyDollarCostAverage.FeedPrice: requires a nonzero price and a nonzero round length;
  a feed before any round divides by zero in the source.
- CostAverage.DollarCostAverageDriver: requires `lowest_date_index` and `bull_start_index` to be
  inside the rows, which the source indexes (lines 37 and 68) and otherwise panics on.
- Fluctuation.New: requires every look-ahead window to be at least one day long, because with a
  window of 0 the source's scan runs off the stack. It also requires nonzero prices, because the
  drop ratios divide by them. The pointer vector and the nested result vectors are modelled as
  sequences.
- The test module's copies of `exit_insane_bull`, `AMMBuyBear`, the baselines and the driver are
  modelled once.
- A usize underflow in the self-correcting ladder's assertion (`finished_amms - 1` with none
  finished) panics like the failed assertion. Both are `Failed`.
