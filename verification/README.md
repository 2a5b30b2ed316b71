# Order pipeline, broker chase and money arithmetic

This project models the parts of the trading system that move money or order state and proves what they keep.

| module (file) | source | what it models |
|---|---|---|
| Money (Money.dfy) | fee quantization, NUMERIC(20,4) columns, sizing | exact decimals (`real`) with every rounding step written out: ties to even for fees, ties away from zero for stored money, truncation at 1e-8 for quantities |
| Dict (Dict.dfy) | Python dicts | insertion-ordered association lists with weighted sums |
| Schemas, Ledger (Schemas.dfy, Ledger.dfy) | updater, order_writer | the tables, order placement and idempotent application of executions, including the database constraints that make an application raise and roll back |
| Matching (Matching.dfy) | matching engine | latest prices, market and limit books, reseeding |
| Pipeline, PipelineRuns (Pipeline.dfy, PipelineRuns.dfy) | relay, engine, updater together | a state machine in which any process may stop between any two steps, and concrete runs of it |
| Chase (Chase.dfy) | kis_chase, kis_order | the chase loop against an adversarial broker: any script of answers, fills, lapses, readable balances and quotes |
| WeightPolicy, ZeroFloor (WeightPolicy.dfy, ZeroFloor.dfy) | weight_policy | the clamp/renormalise iteration, the guarded weights, and what the iteration does without a floor |
| Rebalance, TradePlan, Rerun (Rebalance.dfy, TradePlan.dfy, Rerun.dfy) | rebalance, trade_once | sizing, planning over accounts and symbols, filling the plan against the ledger, running the job again |
| BacktestAccount (BacktestAccount.dfy) | account | cash, positions, partial sales, fee shares |
| Parity (Parity.dfy) | account next to updater | both models given the same trades |
| Fills, Metrics, Backtest (Fills.dfy, Metrics.dfy, Backtest.dfy) | fills, metrics, engine | fill assumptions, drawdown, replay with an equity grid |
| TokenBucket (TokenBucket.dfy) | rate_limit | the rate limiter under any interleaving of threads |
| Performance (Performance.dfy) | performance route | FIFO lots and the count-keyed cache |
| PaperLedger, Ichimoku (PaperLedger.dfy, Ichimoku.dfy) | paper_ledger, kr_ichimoku_trade_once | the weekly plan and its paper fills |
| Membership (Membership.dfy) | kr_index_membership | snapshots to intervals and events |
| Candle (Candle.dfy) | candle aggregator | dirty-set flush and eviction |
| EquitySeries (EquitySeries.dfy) | equity_series | forward-fill merge and rebasing |
| TrendSignal (TrendSignal.dfy) | trend_signal, ensemble, live_ensemble, rebalance | bounded buffers, hysteresis latch, the two ways of combining loads |

Code that updates state is a class or a method with loops, proved equal to a specification function of the inputs or of
the old state; the lemmas then say what that function means. Code made of expressions is a function.

Environment assumptions: `uuid5` is injective on order ids and `uuid4` never repeats; a flush that returns has delivered;
a gateway throttle refusal never reached the broker, a confirmed order carries its number, a confirmed cancel closes the
order it names, a balance read that succeeds is truthful and nothing else moves the symbol during a chase; the monotonic
clock does not go back. The strategy of a backtest is any list of commands per tick; thread schedules, broker behaviour,
crashes and redeliveries are arbitrary.

Where the code and its own description differ, the code is modelled and the difference is a theorem:

- A position's fee shares add up to the fees of the purchases that opened it, not to all purchase fees paid
  (`BacktestAccount.SharesArePaidFeesIff`, `BacktestAccount.AddedFeeIsNotCharged`).
- The backtest account and the ledger agree exactly as long as no sale takes the account below zero, being worth less
  than its own fee and tax (`Parity.BacktestMatchesLedger`, `Parity.OverdrawnSale`).
- Guarded weights end within 1e-9 of [floor, cap], and inside it exactly when the first round already lands there
  (`WeightPolicy.WithinIffFirstRound`, `WeightPolicy.StaysOutside`).
- The documented condition floor <= 1/n <= cap is enough for every input to converge if and only if the floor is positive
  or the cap is at least one, up to the tolerance (`ZeroFloor.SettlesAlwaysIff`). With a floor of zero and a smaller cap,
  an input converges exactly when none of its weights is positive or the positive ones fit under the cap without the
  others (`ZeroFloor.ZeroFloorSettlesIff`); one load that holds everything never does (`ZeroFloor.OneLoadNeverSettles`).
- REJECTED from the chase does not mean that nothing was taken: a submission that raises after the broker took it leaves
  an order on the book (`Chase.PlaceAndChase`, `Chase.RejectedButOnTheBook`). A quantity that is not positive reads as FILLED.
- The chase keeps the last observed fills only within one attempt: the report is the last balance read, except that it
  falls back to nothing, however much was seen before, exactly when the last attempt was taken and no balance read has
  succeeded since its order was sent (`Chase.PlaceAndChase`, `Chase.ReportForgetsFills`).
- Deciding again right after one order filled trades nothing, for every account and target, exactly when a lot is worth
  at most MIN_ORDER_KRW * (1 - FEE_RATE / (band * (1 - FEE_RATE))) (`Rebalance.ConvergesIffLotFits`).
- DEPLOY.md:225 takes it for granted that running the trade job again places no order. After a clean run that is so
  exactly when every row the first run held, or bought less of for lack of cash, is by then inside its band or too small
  to trade (`Rerun.SecondRunTradesNothingIff`): a later sale can free the cash for an earlier purchase
  (`Rerun.FreedCashReopens`), and later fees can push an earlier holding out of its band (`Rerun.LaterFeesReopen`).
- A purchase planned all-in after a sale can be refused by the ledger, which may lag the plan by almost a tick
  (`TradePlan.PlanCanBeRefused`); it is applied exactly when the balance covers it (`TradePlan.BuyFills`).
- While the engine is down a PENDING order may be nowhere but in its table row (`PipelineRuns.StoppedEngineCanForget`,
  `PipelineRuns.LateMarkCanForget`). In which states is exact (`Pipeline.NoPendingOrderIsLost`), and so is which orders a
  stop or the late mark of a relay loses (`Pipeline.StopLosesExactly`, `Pipeline.OrderlyStopLosesResting`,
  `Pipeline.MarkLosesExactly`); nothing else loses one (`Pipeline.OnlyStopsAndMarksLose`), and every start puts it back
  (`Pipeline.RestartRestoresBooks`).
- A REJECTED order is left for FILLED exactly when a redelivered execution finds the account able to cover it
  (`Pipeline.RejectedIsLeftIffCovered`, `PipelineRuns.RejectedIsFilledLater`).
- A tick behind the watermark reopens an evicted candle and its row loses volume (`Candle.RowIsWholeFoldIff`,
  `Candle.LateTickReopens`).
- The running drawdown is the worst fall of all pairs exactly when no negative value falls deeper from the lowest positive
  value before it (`Metrics.WorstPairIff`, `Metrics.BelowZeroFallsDeeper`), so always while values are not negative, as
  the equities of the engine are (`Backtest.ReportedDrawdownIsWorst`).

## Model

| member | source | states |
|---|---|---|
| `Ledger.Database.PlaceOrder` | common/order_writer.py:34-43 | the PENDING row and its outbox row appear together, nothing else changes |
| `Ledger.Database.ApplyExecution` | trading/portfolio/updater.py:39-91 | the new tables and the outcome are those of the ledger function: duplicate, rejected, applied, or raised with everything rolled back |
| `Ledger.Database.BuySide` | trading/portfolio/updater.py:50-72 | balance check, row, debit and position upsert, undone as a whole when a constraint fails |
| `Ledger.Database.SellSide` | trading/portfolio/updater.py:73-88 | holding check, row, credit and reduced quantity, undone as a whole when a constraint fails |
| `Ledger.Database.UpsertPosition` | trading/portfolio/updater.py:62-72 | succeeds exactly when the quantity bought and the resulting quantity are positive; quantity added, cost re-weighted |
| `Ledger.Database.Reject` | trading/portfolio/updater.py:31-36 | only a PENDING order becomes REJECTED |
| `Ledger.ApplyKeepsNonNegative` | trading/portfolio/updater.py:50-88 | no application makes a balance or a quantity negative |
| `Ledger.ApplyKeepsWellKept` | trading/portfolio/updater.py:47-91 | execution ids stay unique and FILLED keeps meaning that the row exists |
| `Ledger.ApplyConserves` | trading/portfolio/updater.py:50-88 | balances equal the opening ones plus the recorded rows within the rounding budget of those rows, quantities exactly |
| `Ledger.ApplyStatus` | trading/portfolio/updater.py:31-91 | FILLED is kept, an answered order is no longer PENDING, nothing becomes PENDING again |
| `Ledger.StoredMoney` | trading/portfolio/updater.py:21-28 | the stored row accounts for the executed money within its own price and fee roundings |
| `Money.TiesAwayFromZero` | trading/portfolio/updater.py:21-28 | half-way between two ticks stored money goes away from zero |
| `Money.TiesToEven` | trading/engine/matching.py:75 | half-way between two ticks a fee goes to the even one |
| `Money.WholeLots` | trading/strategy/core/rebalance.py:21 | a sized quantity is a whole number of 1e-8 lots |
| `Matching.LimitFillPrice` | trading/engine/matching.py:59-70 | a BUY limit triggers exactly at or below its price, a SELL limit at or above it, and fills at the market price |
| `Matching.MatchingEngine.constructor` | trading/engine/matching.py:36-56 | every PENDING row is in the book of its type, in order |
| `Matching.MatchingEngine.OnTick` | trading/engine/matching.py:109-123 | new engine state and executions of a tick; every execution sent is at the price of the tick, executes an order that waited, with its account, symbol, side and quantity, at its limit or better, and carries the fee of that money to half a tick |
| `Matching.MatchingEngine.ReleaseMarket` | trading/engine/matching.py:113-114 | all waiting market orders of the symbol fill, in order, and leave the book |
| `Matching.MatchingEngine.RecheckLimits` | trading/engine/matching.py:115-123 | exactly the triggered limit orders fill, at the price of the tick, the others stay in order |
| `Matching.MatchingEngine.OnOrder` | trading/engine/matching.py:124-137 | new engine state and executions of an order; an execution sent is at the latest price of the symbol, which is at the limit or better, with the order's own fields and the fee of that money |
| `Matching.BooksAreRestingOrders` | trading/engine/matching.py:102-137 | after any messages the books are exactly the orders that were fillable at no moment since they came, oldest first |
| `Matching.NothingFillableRests` | trading/engine/matching.py:102-137 | no resting limit is marketable, no market order waits on a priced symbol |
| `Matching.ExecutedOrResting` | trading/engine/matching.py:102-137 | each reception of an order is one execution or one resting copy |
| `Matching.FillsAtLimitOrBetter` | trading/engine/matching.py:59-87 | every fill the engine decides on is at a price the symbol really had, and never worse than the limit |
| `Matching.ExecutionsAreTrue` | trading/engine/matching.py:73-137 | every execution ever sent executes a received order: account, symbol, side and quantity are the order's, the price is one the symbol really had and is at the limit or better, the fee is the fee rate on price times quantity to half a tick |
| `Matching.NewExecutionsAreTrue` | trading/engine/matching.py:109-137 | the executions a message causes are at the price in force once it has been read |
| `Matching.ReseedIsReplay` | trading/engine/matching.py:36-56 | a start from the PENDING rows equals receiving them as first messages |
| `Pipeline.RelayBatch` | trading/relay/order_relay.py:28-43 | publishes the unlocked, unpublished batch in id order, then marks exactly that batch |
| `Pipeline.OldestUnpublished` | trading/relay/order_relay.py:28-43 | the batch is the oldest rows that are neither published nor locked, in id order, as many as allowed |
| `Pipeline.EveryRunIsSafe` | trading/portfolio/updater.py:39-107 | in every run with crashes, republication, reseeding and redelivery: one execution row per order, FILLED exactly when it exists, nothing negative, balances explained by the rows |
| `Pipeline.NoPendingOrderIsLost` | trading/engine/matching.py:102-150 | in every reachable state a PENDING order is in the outbox, in the log from the committed offset on, in the books, or has an execution buffered or unconsumed, if and only if the engine runs or the outbox, that part of the log or an unconsumed execution leads back to it; so while the engine runs none is ever lost |
| `Pipeline.StopLosesExactly` | trading/engine/matching.py:139-150 | after any run, a stop that delivers n executions loses a PENDING order exactly when the engine held it, resting or beyond those n, and no unpublished outbox row, no log entry from the committed offset, no delivered and no unconsumed execution leads back to it |
| `Pipeline.OrderlyStopLosesResting` | trading/engine/matching.py:139-150 | an orderly stop whose flush delivers everything loses exactly the resting orders behind the offset it commits that nothing else holds |
| `Pipeline.MarkLosesExactly` | trading/relay/order_relay.py:28-43 | after any run, a relay's mark leaves a PENDING order lost exactly when the engine is down, the batch holds all its unpublished rows, and neither the log from the committed offset nor an unconsumed execution leads back to it |
| `Pipeline.OnlyStopsAndMarksLose` | trading/engine/matching.py:102-150 | over every run, an order becomes lost only by a stop of the engine or by a relay's mark while it is down |
| `PipelineRuns.StoppedEngineCanForget` | trading/engine/matching.py:139-150 | a run after which an orderly stop loses a resting order |
| `PipelineRuns.LateMarkCanForget` | trading/relay/order_relay.py:28-43 | a run after which a late mark of the relay loses an order of a stopped engine |
| `Pipeline.RestartRestoresBooks` | trading/engine/matching.py:36-56 | after any run, a start puts exactly the PENDING orders into the books |
| `Pipeline.FilledIsFinal` | trading/portfolio/updater.py:31-91 | no run leaves FILLED |
| `Pipeline.RejectedIsFilledIffCovered` | trading/portfolio/updater.py:50-91 | an unrecorded execution turns REJECTED into FILLED exactly when the balance covers its cost, or the holding its quantity with a balance that stays non-negative; otherwise REJECTED stays |
| `Pipeline.RejectedIsLeftIffCovered` | trading/portfolio/updater.py:31-91 | after any run a step leaves REJECTED exactly when the updater applies an execution of that order which is covered by then, and only for FILLED |
| `PipelineRuns.RejectedIsFilledLater` | trading/portfolio/updater.py:31-36 | a run in which an order is rejected for lack of cash and filled by the execution of its second reading |
| `Pipeline.RunKeeps` | trading/relay/order_relay.py:28-43 | the pipeline invariant and conservation hold along every legal run |
| `Chase.PostOrder` | common/broker/kis_order.py:73-101 | the outcome and replies used are those of the retry rule; the order takes effect at most once, open quantity grows by at most it |
| `Chase.RetriesRepeatNothingTaken` | common/broker/kis_order.py:87-101 | every reply before the last is a throttle refusal, and the last one decides whether anything was taken |
| `Chase.FilledSince` | common/broker/kis_chase.py:37-40 | a successful read gives the true fills |
| `Chase.PollFill` | common/broker/kis_chase.py:43-62 | the account and the quantity are those of the polling function; the quantity is that of the last successful read, zero without one, and polling ends only with everything wanted or the window used up |
| `Chase.PollMoments` | common/broker/kis_chase.py:26-54 | without an early end the balance is looked at 2, 5, 9, 15, 23 and 33 seconds after the order, then every ten |
| `Chase.Submit` | common/broker/kis_chase.py:83-129 | one attempt: a new one may follow only after a confirmed cancel and a successful recheck, when nothing is open and the rest is exact |
| `Chase.Turn` | common/broker/kis_chase.py:82-129 | without a price or a valid order nothing is sent; an attempt asks for exactly what is missing; a next turn starts with nothing open and the exact rest, and is taken whenever something is missing |
| `Chase.PlaceAndChase` | common/broker/kis_chase.py:65-140 | the account and the report are those of the chase function for the broker's script; fills plus open quantity never exceed the request at any moment; the reported fills are the last balance read, or nothing exactly when the last attempt was taken and no read has succeeded since its order, and never more than the true ones; FILLED exactly when all were filled; exactly when REJECTED left an order; a failed baseline sends nothing; the first attempt asks for everything, and while another attempt is allowed, safe and needed it is made |
| `Chase.RejectedButOnTheBook` | common/broker/kis_chase.py:99-102 | whatever else the broker does, one lost answer to the submission gives REJECTED with the order on the book |
| `Chase.ReportForgetsFills` | common/broker/kis_chase.py:82-129 | a broker for which the chase reads three fills twice and then reports none |
| `WeightPolicy.ClampNormalize` | trading/strategy/core/weight_policy.py:14-29 | the loop computes the iterated round with its early exits |
| `WeightPolicy.ComputeWeights` | trading/strategy/core/weight_policy.py:32-57 | the weights of the policy function, for any scores, gates and previous weights |
| `WeightPolicy.ClampingStartsSmoothed` | trading/strategy/core/weight_policy.py:46-57 | for any input with a counted score, clamping starts from weights that have moved from the previous ones by the fraction alpha of the way to the shares of the counted scores |
| `WeightPolicy.SmoothedWeights` | trading/strategy/core/weight_policy.py:46-57 | where no bound binds and the previous weights sum to one, the result minus the previous weight is alpha times the score share minus the previous weight: alpha 0 gives the previous weights, alpha 1 the shares |
| `WeightPolicy.NobodyCountsIsEqual` | trading/strategy/core/weight_policy.py:46-50 | without a load whose gate passes and whose score is positive every weight is the equal one, unsmoothed |
| `WeightPolicy.RoundSumsToOne` | trading/strategy/core/weight_policy.py:22-26 | each round restores the sum to one |
| `WeightPolicy.RoundIsOneSided` | trading/strategy/core/weight_policy.py:22-26 | a round can break only the floor or only the cap |
| `WeightPolicy.SideIsKept` | trading/strategy/core/weight_policy.py:21-28 | the side that is broken never changes |
| `WeightPolicy.FloorContraction` | trading/strategy/core/weight_policy.py:22-26 | what is missing below the floor shrinks by a factor (n-1)*floor at least |
| `WeightPolicy.CapContraction` | trading/strategy/core/weight_policy.py:22-26 | what exceeds the cap shrinks by the share of the loads still above it |
| `WeightPolicy.AnyContraction` | trading/strategy/core/weight_policy.py:22-26 | for any number of loads with 0 < floor <= 1/n <= cap a round leaves at most 1 - floor/4 of the violation |
| `WeightPolicy.ConvergesGeometrically` | trading/strategy/core/weight_policy.py:15-19 | under that condition, from any numbers, the violation falls geometrically until it is within 1e-9 |
| `WeightPolicy.EnoughRoundsSettle` | trading/strategy/core/weight_policy.py:15-19 | so an explicit number of rounds always ends within 1e-9 |
| `ZeroFloor.ZeroFloorSettlesIff` | trading/strategy/core/weight_policy.py:15-29 | with a floor of zero and 1/n <= cap, any input settles exactly when no weight is positive or the positive ones fit under cap plus tolerance together |
| `ZeroFloor.SettlesAlwaysIff` | trading/strategy/core/weight_policy.py:15-29 | for any n and 0 <= floor <= 1/n <= cap, every input settles if and only if the floor is positive or cap plus tolerance is at least one |
| `ZeroFloor.OneLoadNeverSettles` | trading/strategy/core/weight_policy.py:20-29 | for any n and any cap below one by more than the tolerance, one load that holds everything stays as it is for ever |
| `ZeroFloor.SettledStays` | trading/strategy/core/weight_policy.py:27-29 | once settled, further rounds change nothing |
| `WeightPolicy.NeverExact` | trading/strategy/core/weight_policy.py:22-26 | a broken side stays strictly broken |
| `WeightPolicy.WithinIffFirstRound` | trading/strategy/core/weight_policy.py:36-38 | the result is exactly inside [floor, cap] if and only if the first round is |
| `WeightPolicy.StaysOutside` | trading/strategy/core/weight_policy.py:14-29 | (0.9, 0.05, 0.05) becomes (0.6, 0.2, 0.2), outside the configured bounds, and stays outside |
| `WeightPolicy.OrderAndPositivity` | trading/strategy/core/weight_policy.py:20-29 | any number of rounds keeps the input order, sum one and positive weights |
| `WeightPolicy.FiftyRoundsSuffice` | trading/strategy/core/weight_policy.py:14-29 | for three loads fifty rounds or more always end within 1e-9 of the bounds |
| `WeightPolicy.BetterLoadNoLessWeight` | trading/strategy/core/weight_policy.py:46-57 | for any number of loads, a demoted or lower-scoring load with no more previous weight never ends up weighing more |
| `WeightPolicy.GuardedWeights` | trading/strategy/core/weight_policy.py:32-57 | three loads with multipliers 0.5 and 1.5: sum one, all positive, within 1e-9 of the bounds |
| `Rebalance.BuyFitsCash` | trading/strategy/core/rebalance.py:13-21 | the cost with the quantized fee fits the cash with half a tick to spare |
| `Rebalance.SellIsHeld` | trading/strategy/core/rebalance.py:56-72 | a sale is of a positive quantity that is held |
| `Rebalance.OneOrderConverges` | trading/strategy/core/rebalance.py:47-72 | where lots fit the band, the rule trades nothing after its order filled, and no order overshoots the target |
| `Rebalance.ConvergesIffLotFits` | trading/strategy/core/rebalance.py:47-72 | for any price and band: it does so for every account and target if and only if a lot fits the band |
| `Rebalance.TradesTwice` | trading/strategy/core/rebalance.py:69-72 | where a lot does not fit, an account and a target for which it sells twice |
| `Rebalance.LargeLotTradesTwice` | trading/strategy/core/rebalance.py:62-67 | with a lot just under the minimum order a second run buys again |
| `TradePlan.PlanDecisions` | trading/strategy/runners/trade_once.py:101-132 | the plan of every account from its own running cash and positions |
| `TradePlan.PlanStaysSolvent` | trading/strategy/runners/trade_once.py:109-131 | planned cash and positions never go negative |
| `TradePlan.ChooseSpends` | trading/strategy/runners/trade_once.py:121-131 | a planned purchase really costs no more than the cash it was sized on, a planned sale is held |
| `TradePlan.UnpricedIsHeld` | trading/strategy/runners/trade_once.py:115-121 | a symbol without a price, or that some load has not reported, is held; in the equity a position counts at its price, and for nothing without one |
| `TradePlan.ExecutePlan` | trading/strategy/runners/trade_once.py:206-214 | the ledger after filling the plan row by row, and how many trades it refused |
| `TradePlan.BuyFills` | trading/strategy/runners/trade_once.py:135-145 | a planned purchase is applied exactly when the balance covers it, and cash then follows the plan to a tick |
| `TradePlan.SellFills` | trading/strategy/runners/trade_once.py:135-145 | a planned sale of held quantity is always applied, and cash follows the plan to a tick |
| `TradePlan.PlanTracksLedger` | trading/strategy/runners/trade_once.py:101-145 | for any accounts and symbols, ledger cash is never short of planned cash by more than a tick per applied order, and symbols not yet planned are held as planned; when no order of the account was refused it is not ahead by more either, and all holdings equal the planned ones |
| `TradePlan.AppliedAreCounted` | trading/strategy/runners/trade_once.py:206-214 | the orders behind that tick each are exactly the rows of the account whose trade the ledger applied |
| `TradePlan.SellsAndFirstOrdersApply` | trading/strategy/runners/trade_once.py:135-145 | every planned sale and every account's first order is applied |
| `TradePlan.PlanCanBeRefused` | trading/strategy/runners/trade_once.py:126-131 | a plan whose purchase the ledger refuses |
| `Rerun.HoldIffQuiet` | trading/strategy/core/rebalance.py:56-72 | for a positive target the rule holds exactly when the holding is in the band, or the gap or the cash is too small to buy, or the excess too small to sell, without quotients or rounding |
| `Rerun.FeesWithinRate` | trading/strategy/runners/trade_once.py:109-131 | from any row on, the fees of all later rows of a plan stay within 0.1% of the account |
| `Rerun.TradedRowStays` | trading/strategy/runners/trade_once.py:101-132 | a row that traded without being limited by cash has nothing to trade in a second run, whatever the later rows did |
| `Rerun.RerunHoldsIff` | trading/strategy/runners/trade_once.py:101-132 | planning again at the same prices trades nothing exactly when every row left short of its target, held or limited by cash, has become quiet |
| `Rerun.SecondRunTradesNothingIff` | trading/strategy/runners/trade_once.py:101-145 | the same for any number of accounts through the ledger, after a first run without refusals |
| `Rerun.OnlySalesFreeCash` | trading/strategy/runners/trade_once.py:126-131 | planned cash grows only by a planned sale |
| `Rerun.FreedCashReopens` | trading/strategy/runners/trade_once.py:109-131 | a plan that holds a purchase for lack of cash and buys it in the second run |
| `Rerun.LaterFeesReopen` | trading/strategy/runners/trade_once.py:109-131 | a plan whose later fee pushes a held row out of its band, so that the second run sells it |
| `BacktestAccount.BacktestAccount.ApplyBuy` | batch/backtest/account.py:46-62 | new cash, position and result of a purchase |
| `BacktestAccount.BacktestAccount.ApplySell` | batch/backtest/account.py:64-90 | new cash, position and closed trade of a sale |
| `BacktestAccount.BuyAtMark` | batch/backtest/account.py:46-62 | a purchase at the mark lowers equity by its fee within half a tick |
| `BacktestAccount.SellAtMark` | batch/backtest/account.py:64-90 | a sale at the mark lowers equity by fee and tax within half a tick |
| `BacktestAccount.EquityAddsUp` | batch/backtest/account.py:92-99 | equity is the cash and every position with a known price at that price |
| `BacktestAccount.ClosedTradeSays` | batch/backtest/account.py:64-90 | a closed trade has the quantity, price, fees and time of the sale, the price and time of the purchase that opened the position, and the profit as a part of the average cost |
| `BacktestAccount.EntryIsOpening` | batch/backtest/account.py:53-61 | over any trades an open position carries the price and the time of the purchase that opened it, whatever was added since |
| `BacktestAccount.FeeShareIsProportional` | batch/backtest/account.py:78-81 | the share of the opening fee is in proportion to the part sold, to half a tick |
| `BacktestAccount.SharesAreOpeningFees` | batch/backtest/account.py:78-81 | over any trades, fee shares charged plus the fee still carried are exactly the fees that opened the positions |
| `BacktestAccount.SharesArePaidFeesIff` | batch/backtest/account.py:58-61 | the shares equal all purchase fees exactly when purchases added to an open position cost no fee |
| `BacktestAccount.AddedFeeIsNotCharged` | batch/backtest/account.py:58-61 | bought, added to and sold: two fees paid, one charged |
| `BacktestAccount.CashIsRealisedProfit` | batch/backtest/account.py:46-90 | over any trades, cash and remaining cost basis move by total profit within an explicit rounding budget; flat, cash alone does |
| `Parity.OneAgrees` | batch/backtest/account.py:46-90 | unless it is a sale that overdraws, one trade keeps cash, quantities and average costs equal to the ledger's and goes through in both or in neither; an overdrawing sale goes through in the backtest alone |
| `Parity.BacktestMatchesLedger` | batch/backtest/account.py:3-9 | over any trades cash, quantities and average costs equal the ledger's after every trade if and only if no sale overdraws, and until then a trade goes through exactly when it is applied |
| `Parity.OrderMatchesExecution` | batch/backtest/account.py:3-9 | the ledger is given the same trade: one PENDING order with the account, symbol, side and quantity of its execution |
| `Parity.OverdrawnSale` | batch/backtest/account.py:64-72 | a sale for less than its fee that the backtest takes and the ledger raises on |
| `Fills.SlippageIsAdverse` | batch/backtest/fills.py:26-32 | a purchase is dearer and a sale cheaper by exactly the slippage in ten-thousandths of the price; this is never in the trader's favour exactly when it is not negative; sale prices stay non-negative exactly up to 10000 basis points |
| `Fills.TaxIsOfKoreanShares` | batch/backtest/fills.py:37-45 | exactly the symbols made of digits are taxed on a sale, by the tax rate on the money to half a tick |
| `Fills.SharesAreWhole` | batch/backtest/engine.py:57-64 | coins trade in any quantity, shares in the largest whole number towards zero |
| `Fills.SaleCoversCosts` | batch/backtest/fills.py:34-45 | the proceeds of a sale cover its own fee and tax |
| `Metrics.MaxDrawdown` | batch/backtest/metrics.py:81-92 | the loop computes the peak-based drawdown |
| `Metrics.DrawdownIsWorstPair` | batch/backtest/metrics.py:81-92 | for any values: it bounds the fall of every pair whose later value is not negative, and every fall from the highest value so far, and one of these reaches it |
| `Metrics.WorstPairIff` | batch/backtest/metrics.py:81-92 | for any values: it is the worst fall of all pairs if and only if no negative value falls deeper from the lowest positive value before it |
| `Metrics.BelowZeroFallsDeeper` | batch/backtest/metrics.py:81-92 | a series whose negative end falls further from a lower peak |
| `Backtest.BacktestEngine.Buy` | batch/backtest/engine.py:66-75 | quantity, price and fee rules of a purchase |
| `Backtest.BacktestEngine.Sell` | batch/backtest/engine.py:77-92 | quantity, price, fee and tax rules of a sale and the closed trade it records |
| `Backtest.Quote` | batch/backtest/engine.py:70-72 | an explicit price wins over the latest one, and only a positive price is one |
| `Backtest.BacktestEngine.Sample` | batch/backtest/engine.py:117-121 | the grid samples due at a tick, each with the equity before it |
| `Backtest.BacktestEngine.Run` | batch/backtest/engine.py:95-121 | account, final equity, drawdown of initial cash plus all equities, and a curve of exactly the grid times holding the equity after the last tick strictly before |
| `Backtest.RunStaysSolvent` | batch/backtest/engine.py:66-92 | whatever the strategy does, cash stays non-negative and positions positive |
| `Backtest.ReportedDrawdownIsWorst` | batch/backtest/engine.py:111-116 | the reported drawdown is the worst fall over all pairs, initial cash included |
| `TokenBucket.TokenBucket.TryAcquire` | common/rate_limit.py:52-59 | the bucket refills to the smaller of the capacity and tokens + rate * (now - last); the request is granted exactly when that is enough, and otherwise the wait times the rate is what is missing |
| `TokenBucket.TokenBucket.AcquireAlone` | common/rate_limit.py:50-60 | undisturbed, a request within capacity sleeps at most once, for the computed wait, and then takes its tokens |
| `TokenBucket.TokensInRange` | common/rate_limit.py:52-58 | under any interleaving tokens stay in [0, capacity] |
| `TokenBucket.WindowBound` | common/rate_limit.py:50-60 | in any run the tokens granted in [s, t] are at most capacity + rate * (t - s) |
| `TokenBucket.TokensAreConserved` | common/rate_limit.py:50-60 | while no refill spills, what was granted and what is left are the first filling and the refill since the start |
| `TokenBucket.WaitIsEnoughIff` | common/rate_limit.py:59-60 | the computed wait, or any longer one, suffices exactly when the request fits the capacity |
| `TokenBucket.SleepIsEnoughIff` | common/rate_limit.py:54-60 | after any undisturbed sleep the next try succeeds exactly when the request fits the capacity and rate times sleep covers what is missing |
| `TokenBucket.ShorterIsTooShort` | common/rate_limit.py:59-60 | no sleep shorter than the computed wait is enough |
| `TokenBucket.TooLargeIsNeverGranted` | common/rate_limit.py:56-58 | a request above the capacity is granted in no run |
| `Performance.Consume` | api/routes/performance.py:49-58 | the queue without its first units and the cost of exactly those |
| `Performance.SliceCost` | api/routes/performance.py:51-56 | consuming more after a prefix costs the slice between |
| `Performance.FirstInFirstOut` | api/routes/performance.py:51-56 | the first j lots and m units of the next cost what those lots cost and m units at the next one's unit cost |
| `Performance.QueueIsTheRest` | api/routes/performance.py:44-58 | each symbol's queue is its purchases without the consumed front |
| `Performance.SaleCostsItsSlice` | api/routes/performance.py:47-60 | a sale realises its price times quantity less its fee, less its cumulative-quantity slice of the purchases |
| `Performance.ProfitBalances` | api/routes/performance.py:41-64 | realised profit is price times quantity less fee over all sales, less price times quantity plus fee over all purchases, plus the cost of the remaining lots, over all symbols |
| `Performance.QueueIsHoldingIff` | api/routes/performance.py:44-58 | queued lots equal the held quantity throughout exactly when nothing was oversold |
| `Performance.Compute` | api/routes/performance.py:35-76 | the loop computes the report of the history, which `Performance.ReportMeans` states on the rows |
| `Performance.ReportMeans` | api/routes/performance.py:35-76 | on the rows themselves: the profit balances, total fees are the fees of all rows, purchases and sales are counted, the wins are the sales that bring in more after their fee than their slice cost, and the win rate is wins over sales, none without a sale |
| `Performance.CacheStaysConsistent` | api/routes/performance.py:22-33 | any interleaving of inserts, counts, reads and stores keeps every cached report one of a table version not older than its key |
| `Performance.EveryHitIsFresh` | api/routes/performance.py:26-28 | a hit equals the full recomputation on a version since the request's own count |
| `PaperLedger.SimulateFill` | trading/portfolio/paper_ledger.py:36-46 | order row and execution in one step |
| `PaperLedger.WholeFees` | trading/portfolio/paper_ledger.py:18-21 | with whole won and shares no fee is rounded |
| `PaperLedger.FeeToHalfTick` | trading/portfolio/paper_ledger.py:18-21 | for any price and quantity: the fee rate on a purchase, fee and tax rate on a sale, to half a tick |
| `PaperLedger.PurchaseFills` | trading/portfolio/paper_ledger.py:36-46 | a covered whole purchase is applied and debits exactly worth and fee |
| `PaperLedger.SaleFills` | trading/portfolio/paper_ledger.py:36-46 | a whole sale of held shares is applied and credits exactly worth less fee and tax |
| `Ichimoku.PlanTrades` | trading/strategy/runners/kr_ichimoku_trade_once.py:68-112 | the loops compute the plan function |
| `Ichimoku.SoldWhole` | trading/strategy/runners/kr_ichimoku_trade_once.py:76-84 | exactly the holdings that leave are sold, once, whole and at their price |
| `Ichimoku.StaysIff` | trading/strategy/runners/kr_ichimoku_trade_once.py:50-84 | a holding stays as it is exactly while its signal lives without an exit and its last bar is at most 14 days old, or while neither a positive daily close nor a weekly one gives it a price |
| `Ichimoku.Px` | trading/strategy/runners/kr_ichimoku_trade_once.py:50-55 | the positive daily close, else the weekly close that is not zero, else none |
| `Ichimoku.BudgetOfKept` | trading/strategy/runners/kr_ichimoku_trade_once.py:86-89 | the budget of one name times the slots is the money and the kept shares at their daily closes |
| `Ichimoku.CandidatesRanked` | trading/strategy/runners/kr_ichimoku_trade_once.py:93-95 | candidates are the unheld entry signals in strict rank order |
| `Ichimoku.StrongestFirst` | trading/strategy/runners/kr_ichimoku_trade_once.py:93-95 | a plan considers exactly the unheld symbols with an entry signal, the strongest breakout first and equal ones in dictionary order |
| `Ichimoku.PurchasesAreSensible` | trading/strategy/runners/kr_ichimoku_trade_once.py:96-109 | purchases follow the ranking, fit the slots, their share of equity and the money; each is of as many shares as fit: one more would break its share of equity or the money left |
| `Ichimoku.NobodyPassedOver` | trading/strategy/runners/kr_ichimoku_trade_once.py:97-109 | while a slot is free nobody is skipped who could pay for a share |
| `Ichimoku.PlanIsSound` | trading/strategy/runners/kr_ichimoku_trade_once.py:68-112 | sold, kept and bought are disjoint, kept plus bought fit the positions, spending fits the cash |
| `Ichimoku.Execute` | trading/strategy/runners/kr_ichimoku_trade_once.py:163-171 | the ledger after sales first, then purchases, and for each order whether it was applied |
| `Ichimoku.EveryPlannedOrderApplies` | trading/strategy/runners/kr_ichimoku_trade_once.py:163-171 | with whole-won prices every planned order is applied and the cash left is the planner's exactly |
| `Membership.Diff` | batch/rawdata/kr_index_membership.py:36-54 | a symbol is in a snapshot exactly when an interval covers its date; a symbol's intervals are disjoint; replaying the events gives every later snapshot, and every event changes something |
| `Membership.Admit` | batch/rawdata/kr_index_membership.py:41-44 | entering symbols open today and raise add events unless this is the baseline |
| `Membership.Expel` | batch/rawdata/kr_index_membership.py:45-48 | leaving symbols close on their last day and raise drop events, past membership unchanged |
| `Membership.CloseAll` | batch/rawdata/kr_index_membership.py:52-54 | open intervals run to the far date, membership unchanged |
| `Candle.Aggregator.OnTick` | streaming/aggregator/candle.py:66-79 | maximum window, candle and dirty set after a tick |
| `Candle.Aggregator.FlushAndEvict` | streaming/aggregator/candle.py:81-92 | table, dirty set and memory after a flush |
| `Candle.MaxWindowIsLatest` | streaming/aggregator/candle.py:66-67 | the watermark follows the largest minute any tick has fallen in |
| `Candle.FlushKeepsRecent` | streaming/aggregator/candle.py:89-92 | a flush keeps exactly the held candles of the latest minute and the two before it |
| `Candle.FoldIsOhlcv` | streaming/aggregator/candle.py:68-78 | the fold has first and last price, attained extremes and the total volume |
| `Candle.TableIsFold` | streaming/aggregator/candle.py:53-92 | with ticks inside the watermark every row after a flush is the fold of all its ticks, and there is a row for every key |
| `Candle.RowIsWholeFoldIff` | streaming/aggregator/candle.py:89-92 | in any run a row is the whole fold exactly when no tick came after its eviction |
| `Candle.LateTickReopens` | streaming/aggregator/candle.py:68-92 | a run whose late tick reopens a candle and whose row loses volume |
| `Candle.DirtyIsEnough` | streaming/aggregator/candle.py:82-92 | writing dirty keys equals writing all, and nothing unwritten is evicted |
| `EquitySeries.FxAt` | common/equity/equity_series.py:46-49 | binary search gives the latest rate on or before the day |
| `EquitySeries.Advance` | common/equity/equity_series.py:69-75 | the pointer's last value is the latest on or before the day |
| `EquitySeries.MergeTotalKrw` | common/equity/equity_series.py:52-91 | the two-pointer merge equals the simple form, empty when no market or no rate at all |
| `EquitySeries.MergeMeaning` | common/equity/equity_series.py:52-91 | rows for exactly the observed days from the common start that have the needed rate, each the sum in won, days strictly rising |
| `EquitySeries.AddsInWon` | common/equity/equity_series.py:76-91 | what a market adds to a total is its latest value, dollars times the latest rate |
| `EquitySeries.ActiveAre` | common/equity/equity_series.py:58 | the markets that take part are those with any point |
| `EquitySeries.StartIsLatestFirst` | common/equity/equity_series.py:94-101 | the start is the first day by which every market has begun |
| `EquitySeries.RebasePct` | common/equity/equity_series.py:104-120 | base is the forward-filled value at the start; the series begins at zero there |
| `EquitySeries.PctIsTheChange` | common/equity/equity_series.py:120 | a percentage is the change that turns the base into the value |
| `EquitySeries.AfterIsTheRest` | common/equity/equity_series.py:112-117 | the points after the start are the rest of the series from its first later day on |
| `TrendSignal.TrendSignal.Update` | trading/strategy/plugins/trend_signal.py:39-63 | from the bounded buffer, the target and latch of a fold over the full history, which `TrendSignal.TargetFollowsTrend` states on the closes |
| `TrendSignal.BufferIsEnough` | trading/strategy/plugins/trend_signal.py:41-60 | a decision never needs more closes than the buffer holds |
| `TrendSignal.LatchRemembersEntry` | trading/strategy/plugins/trend_signal.py:51-59 | the latch is set exactly when some bar entered and no bar since was an exit |
| `TrendSignal.TargetFollowsTrend` | trading/strategy/plugins/trend_signal.py:47-63 | for every history: nothing unless some bar entered and none since was an exit; otherwise max_weight, or the target volatility over the volatility of the latest closes where that is less; with both positive the target is positive if and only if the trend holds |
| `TrendSignal.AverageSlides` | trading/strategy/plugins/trend.py:30-31 | with every close the average moves by an n-th of what comes in over what falls out |
| `TrendSignal.AverageOfEqual` | trading/strategy/plugins/trend.py:30-31 | the average of equal closes is that close |
| `TrendSignal.Warmup` | trading/strategy/plugins/trend_signal.py:34 | the least number of closes that every indicator needs |
| `TrendSignal.TargetInRange` | trading/strategy/plugins/trend.py:44-48 | targets lie in [0, max_weight] |
| `TrendSignal.EnsembleStrategy.CombinedTarget` | trading/strategy/plugins/ensemble.py:41-48 | every signal is fed once and the result is the weighted mean of the full-history targets |
| `TrendSignal.MeanMoves` | trading/strategy/plugins/ensemble.py:41-48 | a change of one target moves the mean by that load's part of the weights, and equal targets are their own mean |
| `TrendSignal.LiveEnsemble.PrimeSymbol` | trading/strategy/runners/live_ensemble.py:74-86 | after the inner loop, the targets of the whole history and the last day and close; nothing for an empty history |
| `TrendSignal.LiveEnsemble.Prime` | trading/strategy/runners/live_ensemble.py:74-86 | every configured symbol has seen its whole history, in whatever order; one first signal for each symbol with a history and no other, with the targets of that history and its last day |
| `TrendSignal.LiveEnsemble.OnTick` | trading/strategy/runners/live_ensemble.py:88-105 | a signal exactly on a later day, from the stored close of the current one |
| `TrendSignal.CombinedIsMean` | trading/strategy/core/rebalance.py:34-44 | the combination is the weighted mean exactly when every load has reported that bar and the weights have a positive sum; otherwise there is none |
| `TrendSignal.OneMissingHoldsBack` | trading/strategy/core/rebalance.py:29-40 | one load that has not reported the bar, or has reported another, holds the combination back |
| `TrendSignal.PrimeMatchesReplay` | trading/strategy/runners/trade_once.py:76-87 | priming then combining equals the backtest ensemble on the same closes, within the allowed weight |

## Left out

- SecondRunTradesNothingIff: lots must fit the band for two fees and the drift of the ledger, a little less than for one order, because all later fees of a plan add up.
- SettlesAlwaysIff: for floors that are not negative, as multiples of the equal weight are.
- GuardedWeights: bounds to within 1e-9, because the exact bounds hold only when the first round meets them.
- PlaceAndChase: limit prices and buffers are not modelled, because they do not affect how much is ordered; an order response without an order number is excluded.
- WindowBound: a purchase of tokens is one try under the lock; fairness between threads is not claimed.
- BacktestMatchesLedger: a backtest sale carries its tax separately, so the ledger execution is given fee plus tax; the fill model never produces a sale that overdraws (`Fills.SaleCoversCosts`).
- Update: volatility is an arbitrary function of the last lookback + 1 closes.
- Kafka partitions and keys: each topic is one log; tick offsets are not tracked, prices may repeat or change on redelivery.
- Order types other than MARKET and LIMIT, and a LIMIT order without a price.
- Coercion of order quantities and prices, and of execution and position quantities, to their column scale (NUMERIC(28,12) for quantities) when rows are stored.
- Binary floating point and the 28-digit decimal context: arithmetic is exact apart from the explicit rounding steps.
- Orders placed by the trade job and the paper ledger are modelled against the ledger alone, not inside the pipeline.
- reset_account and manual edits of the tables, which break append-only histories by design.
- The candle aggregator across a restart: only an uninterrupted run is claimed.
- A LiveEnsemble primed and then ticking is not one continuous feed: the first tick of a new day feeds the last primed close again.
- Logging, telegram messages, charts, token caches and REST plumbing, which carry no state of the models.
- Cross-sectional buying, machine-learning strategies and Sharpe statistics.
