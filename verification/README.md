# WVAD trading node: verified model of the live path

A Dafny model of the node that trades the WVAD strategy: how WebSocket packets become candles, how the
candles and the startup backfill reach the strategy, how a model trade becomes a target position and one
broker order at a time, how broker snapshots become order events, and how the backtest and the dashboard
account for all of it. Everything that the program does step by step is a method over a class or an array of
values, proved against a function; what the program promises is then proved about that function over every
input and every run.

`dafny verify dfyconfig.toml` checks the whole project.

| module | models |
|---|---|
| `Common` | options, bucket arithmetic |
| `Historical`, `HistoryLaws` | the history resampler and its validation; what history, chosen candles and live candles hold |
| `Candles`, `Grouping`, `CandleRuns`, `CandleStream`, `Acceptance` | the live candle aggregator, its runs, the grouping they compute, and which packets they accept |
| `LiveHistory`, `ArrivalOrder`, `ArrivalPrices` | the agreement of the live stream with the resampler: in bucket order, in any order, at any prices |
| `Backfill`, `Handoff` | the startup backfill and its race with the feed handler |
| `Wvad`, `TradeLaws`, `SignalLaws`, `HigherTimeframe` | the trade part of the indicator engine, its accounting, what a bar decides, and the higher-timeframe direction |
| `Orders`, `RetryLaws` | the order protocol: its safety, and when it retries, gives up or waits |
| `SessionTimes`, `Plan`, `QuoteLaws`, `GateLaws`, `Strategy` | session hours, the target, what a quote and a bar may do to it, and the strategy class that drives orders and target |
| `BrokerEvents`, `BrokerLaws`, `FillLaws`, `SuccessLaws` | reconciliation of broker snapshots, what its events carry, and when it succeeds |
| `Backtest`, `BacktestRuns`, `RowLaws` | the backtest's execution layer, its costs and hours |
| `Dashboard`, `BoardLaws` | fill accounting of the dashboard, in money and in lots |
| `Pacer` | the request pacer |
| `Filters`, `LineLaws`, `Adaptive`, `VolumeChain` | the streaming filters and what they make of a line |
| `Readiness`, `CrossLaws` | the signal line: when it exists, what it is made of and how it crosses |

How to read the contracts: `var ok := P; ok` is just `P`, named so that it is proved as one fact; a ghost
function defined as "the one value with this property" is given its formula by a lemma whose name ends in
`Is`.

## Conventions

- Prices, R multiples and filter values are `real`. The `f64` rounding, NaN and infinities of the program
  are abstracted, and so are the two-decimal `round2` columns of the backtest report. Lots, volumes, epoch
  seconds, milliseconds and nanoseconds are unbounded `int` or `nat`.
- ATR, ADX, the higher-timeframe direction and the crossover flags are inputs of the trade engine; the
  crossover flags are computed by `Readiness.SignalLine` from the bars and the direction by
  `HigherTimeframe.HtfCandles`.
- The order state machine of the trading framework is external; `BrokerEvents.Applied` states the
  transitions that are assumed of it, with a fill still accepted on a canceled order; `Orders` counts such
  fills, and a part fill opens the order again. The position cache is assumed to change together with the
  fill event.
- A packet that the aggregator refuses ends the run, as the node stops on it.
- The warm-up close need not be a multiple of the bar size; nothing in the proofs depends on it.
- Submission results, clock readings, packets, broker answers and fetched history are arbitrary inputs.

## Findings

Properties that fail in the program, each with the condition under which they hold:

- A slot may be configured with up to 100 lots (slot_config.rs:127) while order terms accept 1..=100
  (request.rs:227-233): those terms refuse a flip of 51 or more lots. All orders of all runs without a time-out
  or late fill fit exactly when lots <= 50 (`Orders.QuantityFitsIffFiftyLots`). In the whole program such a slot
  is stopped earlier, so this flip never gets that far: `max_lots` is 1..=10 (production.rs:37), a live slot
  needs `max_lots` of at least its lots (model_live.rs:98-103), and the dispatcher clamps the cap to 1..=10
  (dispatch.rs:219-222, mock.rs:99) and refuses an order that starts or ends above it (dispatch.rs:286-294).
- The position bound |position| <= lots holds exactly for the runs in which no order times out and no cancelled
  order fills (`Orders.BoundHoldsIffCalm`). One flip that is given up after 30 s and still fills leaves the run
  short by twice its lots (`Orders.UnresolvedOrderOvershoots`), and so does one that is cancelled, replaced by
  the exit and still fills (`Orders.LateFillOvershoots`).
- `min_warmup` does not cover the signal line for the Hull average with a length over 20, unless the ADX or
  ATR length is the slower one (`Readiness.WarmupCovers`, `Readiness.WarmupAlwaysCovers`).
- With Triple VWMA, bars without volume delay the signal line or interrupt it exactly when as many
  consecutive bars as the filter is long are all without volume (`Readiness.SignalNeedsVolume`).
- If the first packet lies exactly on a boundary after the warm-up close and is handled only when its bar is
  already due, its bar is sent before the backfill is started and a backfill bar can follow a later bar.
  Order is kept exactly when the packet is part-way, or in time, or leaves no gap
  (`Handoff.FirstPacketDecides`, `Handoff.LateJoinBreaksOrder`).
- The live stream resampled is the coarser live stream in start, open, high, low and volume in any order of
  arrival, but not always in the close: a trade stamped just before a fine boundary that arrives after one
  stamped behind it closes the coarse bar and not the last fine one (`ArrivalPrices.OrderMatters`, for every two
  sizes). The closes agree exactly when, in every coarse bucket, the last price to arrive is the last price to
  arrive in the last fine bucket traded (`ArrivalOrder.LiveMatchesHistoryExactly`). They agree at all prices
  exactly when the last trade to arrive in every coarse bucket is stamped in the last fine bucket traded
  (`ArrivalPrices.MatchIffLastArrivals`).

## Model

| member | source | states |
|---|---|---|
| `Candles.Aggregator.constructor` | apps/kite-node/src/native_node/ws_candles.rs:90-98 | a fresh aggregator with the warm-up close as its last close |
| `Candles.Aggregator.Observe` | apps/kite-node/src/native_node/ws_candles.rs:111-214 | one packet: the same state and the same refusal, at the same check, as the step function the run theorems are about |
| `Candles.Aggregator.CloseDue` | apps/kite-node/src/native_node/ws_candles.rs:223-261 | hands out exactly the due bars, oldest first, without the part-way one |
| `Candles.Aggregator.TakeGap` | apps/kite-node/src/native_node/ws_candles.rs:264-266 | reports the gap once |
| `Acceptance.AcceptedExactly` | apps/kite-node/src/native_node/ws_candles.rs:111-171 | after any accepted run the next packet is accepted exactly when it is live and full, has a time, a positive price and a volume, was received 2 s before to 10 s after its time, its trade is at most 2 s after it, no earlier packet has a later time, a larger volume or another connection, and, as the first one, its bucket is not before the warm-up close |
| `Acceptance.RunsAccepted` | apps/kite-node/src/native_node/ws_candles.rs:111-171 | a run is accepted exactly when each of its packets is, whatever the clock events between them |
| `Acceptance.RefusalsAreTrue` | apps/kite-node/src/native_node/ws_candles.rs:111-165 | over every run what a refusal says of the packet holds: too old, out of order, another connection, a smaller volume, and so on |
| `Acceptance.PacketsGo` | apps/kite-node/src/native_node/ws_candles.rs:173-214 | a later packet with a trade touches exactly the bar of its bucket if that is open or lies after all bars, else the trade is late, no bar changes and its volume is carried; a packet without a trade only shows its open interest on the newest open bar |
| `CandleStream.StreamIsGroupBy` | apps/kite-node/src/native_node/ws_candles.rs:111-261 | over every run without a late trade, candles handed out, the withheld part-way bar and the open bars are exactly the packets' trades grouped by bucket, in bucket order, with first, highest, lowest and last price in arrival order and summed volume |
| `CandleStream.LateTradesAreCounted` | apps/kite-node/src/native_node/ws_candles.rs:175-221 | with late trades the bars are still the grouping of the trades that were on time, and every trade is booked or counted late |
| `CandleStream.VolumeConserved` | apps/kite-node/src/native_node/ws_candles.rs:145-261 | volume traded since the first packet = volume handed out + withheld part-way bar + open bars + carried volume |
| `CandleStream.EmittedInOrder` | apps/kite-node/src/native_node/ws_candles.rs:243-261 | candles come out with strictly increasing starts, on the grid, none before the warm-up close |
| `CandleStream.EmittedOnTime` | apps/kite-node/src/native_node/ws_candles.rs:223-241 | a clock event finishes exactly the open bars whose period ended at least 1000 ms ago, oldest first |
| `HistoryLaws.CandlesAreBars` | apps/kite-node/src/native_node/ws_candles.rs:243-261 | in every run the candles handed out are the finished bars one for one, with their start, prices, volume and open interest, but for a first one joined part-way |
| `Grouping.GroupByUnique` | apps/kite-node/src/native_node/ws_candles.rs:175-221 | the group-by predicate determines the bars, so it is a specification of them |
| `LiveHistory.LiveMatchesHistory` | apps/kite-node/src/native_node/ws_candles.rs:175-261 | resampling the step-m stream by n = m·k gives the step-n stream of the same packets on open, high, low, close and volume, when the first packet is on an n-boundary, both runs are flushed and without late trades, and trades arrive in bucket order |
| `ArrivalOrder.RunOpens` | apps/kite-node/src/native_node/ws_candles.rs:175-214 | in every run a booked trade goes to a bucket that has trades or to one after all that have: bars start in bucket order |
| `ArrivalOrder.LiveMatchesHistoryExactly` | apps/kite-node/src/native_node/ws_candles.rs:175-261 | as LiveMatchesHistory but for trades in any order: start, open, high, low and volume always agree, and everything agrees exactly when in every coarse bucket the last price to arrive equals the last price to arrive in its last traded fine bucket |
| `ArrivalPrices.MatchIffLastArrivals` | apps/kite-node/src/native_node/ws_candles.rs:75-83 | the same two runs at all prices of their packets: they agree whatever the prices exactly when in every coarse bucket the last trade to arrive is stamped in its last traded fine bucket |
| `ArrivalPrices.OrderMatters` | apps/kite-node/src/native_node/ws_candles.rs:191-195 | for every two sizes a run over three packets, without late trades, whose resampled bars differ |
| `Historical.BuiltFrom` | crates/kite-adapter/src/http/historical.rs:64-75 | the accepted sizes are exactly the divisors of 30 that the source size divides |
| `Historical.Aggregate` | crates/kite-adapter/src/http/historical.rs:185-208 | fails exactly on an unparsed time, otherwise merges neighbours of one bucket in order |
| `Historical.AggregateComposes` | crates/kite-adapter/src/http/historical.rs:185-208 | aggregating by m and then by a multiple of m is aggregating once, for candles in any order |
| `Historical.AggregateConserves` | crates/kite-adapter/src/http/historical.rs:185-208 | keeps total volume, highest high, lowest low, first open, last close and open interest |
| `Historical.ExtremesAreAttained` | crates/kite-adapter/src/http/historical.rs:185-208 | the highest high and lowest low named by the conservation law are those of some candle and bound all |
| `Historical.ValidateFor` | crates/kite-adapter/src/http/historical.rs:221-253 | succeeds exactly for non-empty valid candles; the error is the first rule the first bad candle breaks |
| `Historical.AggregateStaysValid` | crates/kite-adapter/src/http/historical.rs:185-253 | validated history aggregates to history that validates at the new size |
| `Historical.BucketOnIstGrid` | crates/kite-adapter/src/http/historical.rs:64-76 | bucket starts of every allowed size fall on the IST minute grid |
| `HistoryLaws.ValidExactly` | crates/kite-adapter/src/http/historical.rs:221-253 | history is valid exactly when every candle has an IST time on its grid, positive prices within low and high, and a later time than all before it |
| `HistoryLaws.FaultsAreTrue` | crates/kite-adapter/src/http/historical.rs:221-253 | the error names a rule that its candle breaks |
| `Backfill.Finalized` | apps/kite-node/src/native_node/live_bars.rs:39-54 | exactly the candles final at the broker, an error when there are none or the history is invalid |
| `Backfill.Select` | apps/kite-node/src/native_node/live_backfill.rs:46-65 | succeeds exactly when the final candles that close in the gap follow one another without a hole inside a day and end at its end, and returns those |
| `Backfill.NoHoleInADay` | apps/kite-node/src/native_node/live_backfill.rs:44-65 | every grid time between two closes of one day is itself a close |
| `HistoryLaws.SelectedExactly` | apps/kite-node/src/native_node/live_backfill.rs:46-65 | what is selected is, in order, exactly the candles that close in the gap and at least 45 s ago, of valid history |
| `Handoff.HandoffKeepsOrder` | apps/kite-node/src/native_node/data.rs:166-258 | over every interleaving of task and feed handler: close times strictly increase, no backfill bar after a live one, all of the gap or nothing of it, no hole inside a day, live bars begin where the gap ends |
| `Handoff.FirstPacketDecides` | apps/kite-node/src/native_node/data.rs:317-354 | all interleavings after a first packet keep the order exactly when it came part-way, in time or without a gap |
| `Handoff.LateJoinBreaksOrder` | apps/kite-node/src/native_node/ws_candles.rs:159-173 | for every late first packet and every history that fills its gap, a run that sends a backfill bar after a later live bar |
| `Wvad.Engine.HitLevel` | crates/wvad/src/engine.rs:77-98 | marks the level and books its fraction, once |
| `Wvad.Engine.Mark` | crates/wvad/src/engine.rs:227-243 | an intrabar target: the levels up to it in order, TP3 closes |
| `Wvad.Engine.ForceCloseTrade` | crates/wvad/src/engine.rs:221-223 | closes the open trade, if any |
| `Wvad.Engine.Feed` | crates/wvad/src/engine.rs:247-405 | one bar: stop before targets, reversal, stop step, entry |
| `TradeLaws.EveryTradeAccountsForItself` | crates/wvad/src/engine.rs:63-98 | over every run of bars, marks and forced closes the events are complete trades: entry, at most TP1 and TP2, exit; fractions sum to 1 and the reported R is the fraction-weighted R of the fills |
| `TradeLaws.SweepIsRange` | crates/wvad/src/engine.rs:327-360 | a bar's target sweep hits exactly the levels up to the farthest it reached, in order |
| `TradeLaws.BarExitBound` | crates/wvad/src/engine.rs:327-405 | no bar's exit beats reaching every target; TP3 is exactly that |
| `TradeLaws.ExitsOfRunsAreBounded` | crates/wvad/src/engine.rs:327-405 | the same for every exit of every bar of every run |
| `TradeLaws.SteppedStopKeepsTp1` | crates/wvad/src/engine.rs:351-362 | after the stop stepped, an exit of a bar not opening beyond it keeps TP1's R |
| `TradeLaws.SteppedStopOfRunsKeepsTp1` | crates/wvad/src/engine.rs:351-362 | the same for every exit of every bar of every run |
| `TradeLaws.TicksCommuteWithBar` | crates/wvad/src/engine.rs:227-405 | any ticks inside a bar that does not touch the stop, then the bar, give the trade and the events of the bar alone, TP3 and a new entry included |
| `SignalLaws.EntriesFollowCrossovers` | crates/wvad/src/engine.rs:276-405 | over every run an entry is made only on an accepted crossover of its bar: long exactly on an up cross, short on a down cross alone, at the close, the stop one risk behind and the targets ahead on that side |
| `SignalLaws.BarsDecide` | crates/wvad/src/engine.rs:325-405 | over every run a bar at the stop stops the trade out there or at a worse open; else through TP3 it completes; else an accepted crossover against it reverses it at the close; else it rides on with the targets reached marked and the stop stepped; a stopped trade's exit is ambiguous exactly when the bar also went through a new target; from flat a trade opens exactly on an accepted crossover |
| `HigherTimeframe.HtfCandles.Update` | crates/wvad/src/engine.rs:142-163 | one bar: extends its candle or starts one, and completes it at its end |
| `HigherTimeframe.CandlesAreOnTheGrid` | crates/wvad/src/engine.rs:143-157 | a bar belongs to the candle of the last grid time from 09:00 of its IST day, and completes it exactly when it ends at the next one or later |
| `HigherTimeframe.DoneIsLastComplete` | crates/wvad/src/engine.rs:142-167 | over all bars in sequence the direction is 1, -1 or neither as the last complete candle rises or falls from its first open to its last close: it never looks ahead |
| `Orders.NextOrder` | apps/kite-node/src/native_node/model_strategy.rs:104-118 | the single order that reaches the target, opposite to the position, reduce-only exactly when it only shrinks it; none exactly on target or to add |
| `Orders.OrderSafety` | apps/kite-node/src/native_node/model_strategy.rs:354-424 | over every run against any broker, one that fills cancelled orders included: every open order never cancelled is in flight or known timed out; flat means position 0, nothing wanted, nothing in flight and no such order; while no order timed out and no cancelled order filled, the position, also with all unfilled lots, stays within the lots |
| `Orders.OrdersAreOrderly` | crates/kite-adapter/src/execution/native.rs:20-31 | every order sent opposes the position, passes the reduce-only check, is an exit of exactly the position after a halt, and before a time-out or late fill is of 1 to twice the lots |
| `Orders.QuantityFitsIffFiftyLots` | crates/kite-adapter/src/execution/request.rs:227-233 | all orders of all runs before a time-out or late fill fit the order terms exactly when lots <= 50 |
| `Orders.BoundHoldsIffCalm` | apps/kite-node/src/native_node/model_strategy.rs:354-369 | every run with at most k time-outs and j fills of cancelled orders keeps the position within the lots exactly when k = 0 and j = 0 |
| `Orders.UnresolvedOrderOvershoots` | apps/kite-node/src/native_node/model_strategy.rs:354-369 | a run with one time-out and no late fill that ends short by twice its lots |
| `Orders.LateFillOvershoots` | crates/kite-adapter/src/execution/broker_events.rs:346-367 | a run with one fill of a cancelled order and no time-out that ends short by twice its lots |
| `Orders.HaltedRunUnwinds` | apps/kite-node/src/native_node/model_strategy.rs:252-266 | after a halt the target stays 0, the position only shrinks, and it takes at most as many orders as lots, if only the order in flight fills and each ends with a lot filled |
| `Orders.HaltedRunRetries` | apps/kite-node/src/native_node/model_strategy.rs:65-73 | whatever happens meanwhile, by the first guard tick 10 s after the last exit another order has been sent, or the tick sends the exit of exactly the lots open, or none are open |
| `Orders.OrderArrives` | apps/kite-node/src/native_node/model_strategy.rs:370-408 | from any reachable calm state one reconciliation and any fills completing its order reach the target, and the next guard tick sends nothing |
| `RetryLaws.CancelledExitsAreRetried` | apps/kite-node/src/native_node/model_strategy.rs:86-92 | over every run up to five cancelled exits since the last fill leave target, trade and halt as they were, the sixth halts |
| `RetryLaws.RetriesTheSameExit` | apps/kite-node/src/native_node/model_strategy.rs:431-444 | the next guard tick sends again exactly the lots between position and target |
| `RetryLaws.CancelledEntriesAreAbandoned` | apps/kite-node/src/native_node/model_strategy.rs:445-453 | a cancelled entry or flip, or an unknown order, leaves target 0 and no trade, without a halt |
| `RetryLaws.RefusedOrdersHalt` | apps/kite-node/src/native_node/model_strategy.rs:647-658 | a rejected or denied order halts |
| `RetryLaws.GivenUpAfterThirtySeconds` | apps/kite-node/src/native_node/model_strategy.rs:358-369 | a guard tick gives up the order in flight exactly when the broker has not ended it more than 30 s after it was sent |
| `RetryLaws.HaltedRunsArePaced` | apps/kite-node/src/native_node/model_strategy.rs:65-73 | over every run a halted strategy sends three exits at once and then none within 10 s of the last, and sends whenever this allows it |
| `RetryLaws.StopHalts` | apps/kite-node/src/native_node/model_strategy.rs:607-615 | a guard tick after a requested stop halts |
| `RetryLaws.StoppingOnlyUnwinds` | apps/kite-node/src/native_node/model_strategy.rs:371-372 | after a requested stop or a halt every order sent is the reduce-only exit of exactly the position |
| `RetryLaws.FlatExactly` | apps/kite-node/src/native_node/model_strategy.rs:616-619 | after a guard tick with nothing in flight the run is flat exactly without a position and with every order once given up ended |
| `RetryLaws.NeverAdds` | apps/kite-node/src/native_node/model_strategy.rs:383-386 | a target beyond the position on its own side halts without an order |
| `RetryLaws.FailedSubmissionHalts` | apps/kite-node/src/native_node/model_strategy.rs:637-639 | an order that cannot be submitted after a fill halts |
| `Plan.ModelAndTargetAgree` | apps/kite-node/src/native_node/model_strategy.rs:299-351 | in every reachable state a trade that is ours is open in the engine, its hits are prefix-closed, and the target is its side times lots less the lots of the targets hit, which is lots times the open fraction |
| `Plan.HeldIsRemaining` | apps/kite-node/src/native_node/slot_config.rs:128-141 | the lots held are exactly the open fraction of the slot, at least one |
| `Plan.BarAgrees` | apps/kite-node/src/native_node/model_strategy.rs:299-348 | one bar's events keep target and trade in agreement, a new entry included |
| `Plan.StepTogether` | apps/kite-node/src/native_node/model_strategy.rs:501-575 | every warm-up bar, live bar, quote, halt and abandoned trade keeps model and target in agreement |
| `QuoteLaws.QuotesDecide` | apps/kite-node/src/native_node/model_strategy.rs:462-487 | over every run our long is decided on the bid and our short on the ask, whatever the other side: closed at that price at the stop, else complete at TP3, else the targets reached are booked at their prices |
| `GateLaws.ClosedGateOpensNothing` | apps/kite-node/src/native_node/model_strategy.rs:552-563 | over every run a live bar outside 09:00 to the last entry, in a blackout, more than 90 s late, after the day's square-off, halted or stopping opens nothing; no bar trades what the warm-up opened |
| `GateLaws.OpenGateTrades` | apps/kite-node/src/native_node/model_strategy.rs:552-563 | otherwise, from flat, an accepted crossover opens a trade to its side with all lots as the target |
| `GateLaws.SquareOffEndsTheDay` | apps/kite-node/src/native_node/model_strategy.rs:564-574 | the first bar of a day that closes at or after the square-off time leaves no trade and no target |
| `GateLaws.DayStaysOver` | apps/kite-node/src/native_node/model_strategy.rs:560-574 | after it nothing is opened or wanted until a bar of another day |
| `Strategy.ModelStrategy.constructor` | apps/kite-node/src/native_node/model_strategy.rs:162-194 | starts with both invariants |
| `Strategy.ModelStrategy.Apply` | apps/kite-node/src/native_node/model_strategy.rs:299-348 | engine events move the target |
| `Strategy.ModelStrategy.Reconcile` | apps/kite-node/src/native_node/model_strategy.rs:354-408 | the order protocol's reconciliation, and whether the submission failed |
| `Strategy.ModelStrategy.ForgetClosedTimedOut` | apps/kite-node/src/native_node/model_strategy.rs:411-424 | keeps exactly the timed-out orders not known closed |
| `Strategy.ModelStrategy.OnClosedByBroker` | apps/kite-node/src/native_node/model_strategy.rs:431-459 | a cancelled or expired order: retry the exit, abandon the trade or halt; both invariants kept |
| `Strategy.ModelStrategy.OnRefusedOrder` | apps/kite-node/src/native_node/model_strategy.rs:647-658 | a rejected or denied order halts; both invariants kept |
| `Strategy.ModelStrategy.OnFilled` | apps/kite-node/src/native_node/model_strategy.rs:625-640 | a fill: reconcile, halt on a failed submission; both invariants kept |
| `Strategy.ModelStrategy.OnTimer` | apps/kite-node/src/native_node/model_strategy.rs:603-621 | the guard tick; both invariants kept |
| `Strategy.ModelStrategy.CheckLevels` | apps/kite-node/src/native_node/model_strategy.rs:462-487 | a quote: stop first, then the farthest target reached, then one order; both invariants kept |
| `Strategy.ModelStrategy.OnBar` | apps/kite-node/src/native_node/model_strategy.rs:501-588 | a repeated bar changes nothing, a warm-up bar only the model, a live bar plan and orders; both invariants kept |
| `Strategy.ModelStrategy.WarmUp` | apps/kite-node/src/native_node/model_strategy.rs:523-528 | a warm-up bar feeds the model and never sends an order |
| `BrokerEvents.Reconcile` | crates/kite-adapter/src/execution/broker_events.rs:128-387 | the event list or the kind of failure of one snapshot, as the function the laws are about |
| `BrokerEvents.Gather` | crates/kite-adapter/src/execution/broker_events.rs:233-290 | the distinct trades of this order, or failure on a bad or repeated one |
| `BrokerEvents.ApplyFills` | crates/kite-adapter/src/execution/broker_events.rs:329-360 | the new fills in order, each accepted by the order |
| `BrokerLaws.ReconciledOrderShowsSnapshot` | crates/kite-adapter/src/execution/broker_events.rs:228-387 | after any successful reconciliation the fills are exactly the snapshot's trades, their sum the broker's filled quantity and at most the order's, the status the snapshot's |
| `BrokerLaws.SameSnapshotIsSilent` | crates/kite-adapter/src/execution/broker_events.rs:291-387 | the same snapshot again, at any later time, yields no event |
| `BrokerLaws.LostFillIsIntegrity` | crates/kite-adapter/src/execution/broker_events.rs:291-328 | a snapshot that drops or alters a processed fill is an integrity failure |
| `BrokerLaws.LagExactly` | crates/kite-adapter/src/execution/broker_events.rs:291-328 | lag is reported exactly when the snapshot reads well, holds every processed fill unchanged, and is older than a trade or disagrees on quantity |
| `BrokerLaws.OnlyTheLastObservationCounts` | crates/kite-adapter/src/execution/broker_events.rs:329-386 | after any successful observations the order shows the last one, as reconciling it alone from any state would |
| `BrokerLaws.TradeOrderIsIrrelevant` | crates/kite-adapter/src/execution/broker_events.rs:233-295 | the result does not depend on the order of the trade list nor on other orders' trades |
| `FillLaws.EventsCarryTheSnapshot` | crates/kite-adapter/src/execution/broker_events.rs:322-386 | every fill event is a trade of the snapshot that the order did not have, with its identity, quantity, price and time; the acceptance comes first with the exchange's time, the end last with the time of the last update |
| `FillLaws.OrderHoldsTheTrades` | crates/kite-adapter/src/execution/broker_events.rs:226-386 | after every successful reconciliation each fill is one of the order's trades, each of them is a fill, and quantity times price adds up to the same |
| `FillLaws.RetriedExactly` | crates/kite-adapter/src/execution/broker_events.rs:139-304 | the lag error is exactly a matching order worked as sent, with acceptable trades and every processed fill unchanged, whose quantities differ or whose trade is later than its update |
| `SuccessLaws.SucceedsExactly` | crates/kite-adapter/src/execution/broker_events.rs:128-387 | reconciliation succeeds exactly for a snapshot of this order worked as sent and not from the future, whose trades fit and are in step, which holds every processed fill unchanged, whose status follows from the order's, and whose first acceptance is before its last update and every trade |
| `Backtest.PartialInStep` | apps/kite-node/src/native_node/model_backtest.rs:121-179 | a partial closes exactly its level's lots, in the row and in the live target |
| `Backtest.ExitInStep` | apps/kite-node/src/native_node/model_backtest.rs:132-187 | an exit closes the rest and its row adds up |
| `BacktestRuns.LotsAfterEachEvent` | apps/kite-node/src/native_node/model_backtest.rs:126-223 | after each event of any legal event sequence the open lots are the live target's |
| `BacktestRuns.ReplayMatchesLive` | apps/kite-node/src/native_node/model_backtest.rs:126-223 | after any number of bars a row is open exactly while the engine has a trade, with the lots of the live target; nothing is open after a day's last bar |
| `BacktestRuns.RowsAreWhole` | apps/kite-node/src/native_node/model_backtest.rs:126-223 | every row closes exactly the slot's lots, its points are the model's R in points less two slippages a lot, entered at an allowed time and closed on the same day |
| `BacktestRuns.ReversalIsOneOrder` | apps/kite-node/src/native_node/model_backtest.rs:169-206 | a reversal is followed at once by the trade it opens, and all orders charged are the fills and one entry a row, less one for each reversal |
| `BacktestRuns.Replayer.Handle` | apps/kite-node/src/native_node/model_backtest.rs:171-206 | one event changes the open row and the finished rows |
| `BacktestRuns.ReplayAll` | apps/kite-node/src/native_node/model_backtest.rs:126-223 | the whole loop over the bars builds the rows the laws are about |
| `RowLaws.EveryRowPays` | apps/kite-node/src/native_node/model_backtest.rs:135-175 | every row's points are those of its executed fills, its costs a round trip a lot and the brokerage of its orders; the net result is the points' value less all of them |
| `RowLaws.NothingHeldPastTheDay` | apps/kite-node/src/native_node/model_backtest.rs:206-222 | after a bar at or past the square-off time, or a day's last, nothing is held in the book, the engine or live |
| `RowLaws.RowsKeepHours` | apps/kite-node/src/native_node/model_backtest.rs:206-222 | every row was entered from 09:00 to the last entry and outside blackouts, closed on its day, and squared off only on a bar that ends the day |
| `RowLaws.RowsOpenExactly` | apps/kite-node/src/native_node/model_backtest.rs:188-213 | in every replay a bar from flat opens a row exactly on an accepted crossover of a traded day, within hours and not on the day's last bar: to its side, at its close, with all lots |
| `Dashboard.Board.ApplyFill` | apps/kite-node/src/native_node/dashboard.rs:196-231 | one fill: open, add, reduce, close or flip |
| `Dashboard.Board.OpenTrade` | apps/kite-node/src/native_node/dashboard.rs:138-144 | a new row, the oldest beyond the kept number evicted |
| `Dashboard.CashIdentity` | apps/kite-node/src/native_node/dashboard.rs:196-231 | realised points = cash received + position at its average entry; the average exists exactly with a position; round trips count returns to and crossings of zero; every fill is counted |
| `Dashboard.RowsSumToRun` | apps/kite-node/src/native_node/dashboard.rs:181-231 | the rows' points are the run's, less exactly what was realised without a row or held by evicted rows |
| `Dashboard.AttributedLosesNothing` | apps/kite-node/src/native_node/dashboard.rs:138-231 | nothing is lost while every reducing fill finds its row and none is evicted |
| `BoardLaws.RowsHoldThePosition` | apps/kite-node/src/native_node/dashboard.rs:181-231 | the lots the rows show as open are the position, and their average entries value what was paid to open lots, less exactly what found no row, went beyond one, or was evicted |
| `BoardLaws.FittingRowsHoldAll` | apps/kite-node/src/native_node/dashboard.rs:181-231 | while every fill finds its rows and none is evicted both are exact |
| `BoardLaws.RowsAreTheNewest` | apps/kite-node/src/native_node/dashboard.rs:138-144 | the rows are those of the last 80 trades opened, oldest first |
| `Pacer.Pacer.Admit` | crates/kite-adapter/src/http/authenticated.rs:46-62 | one request of one class: admitted and recorded, or told when to retry |
| `Pacer.RateIsBounded` | crates/kite-adapter/src/http/authenticated.rs:31-62 | for any non-decreasing calls the queue never exceeds the cap and any cap + 1 consecutive admissions span the window |
| `Pacer.RetryIsEarliest` | crates/kite-adapter/src/http/authenticated.rs:46-62 | a refused call names the earliest time an uncontended retry succeeds |
| `Pacer.LimitsAreExact` | crates/kite-adapter/src/http/authenticated.rs:46-62 | over all non-decreasing calls nine general or three historical requests span 1000 ms, and a call is admitted exactly when fewer than eight, or two, were in the 1000 ms before |
| `Filters.Sma.Update` | crates/wvad/src/filters.rs:38-43 | the mean of the last len inputs, of the whole history |
| `Filters.Wma.Update` | crates/wvad/src/filters.rs:94-101 | the linearly weighted mean of the last len inputs |
| `Filters.Ema.Update` | crates/wvad/src/filters.rs:53-63 | every input weighted by its age, seeded with the first |
| `Filters.Rma.Update` | crates/wvad/src/filters.rs:77-84 | every input weighted by its age, seeded with the mean of the first len |
| `Filters.DecayedStep` | crates/wvad/src/filters.rs:56-63 | the recursive step is the age-weighted formula |
| `Filters.Vwma.Update` | crates/wvad/src/filters.rs:114-121 | volume-weighted mean of the last len, none while their volume is 0 |
| `Filters.Hma.Update` | crates/wvad/src/filters.rs:136-143 | weighted mean over the last round(sqrt len) values of twice the half-length mean less the full one |
| `Filters.RoundSqrtIsNearest` | crates/wvad/src/filters.rs:132-135 | the root length is the whole number nearest to the square root |
| `Filters.Llama.Update` | crates/wvad/src/filters.rs:158-172 | mean plus half the slope over len bars |
| `Filters.Kalman.Update` | crates/wvad/src/filters.rs:185-195 | moves by the bar's gain, whose error term advances on bars without a value too |
| `Filters.KalmanStaysInside` | crates/wvad/src/filters.rs:174-196 | the estimate never leaves the range of its inputs |
| `LineLaws.MeansLag` | crates/wvad/src/filters.rs:34-108 | on a straight line the simple mean lags by half its length and the weighted mean by a third |
| `LineLaws.LlamaLeads` | crates/wvad/src/filters.rs:153-172 | on a straight line the mean with its slope leads by half a bar |
| `LineLaws.HullOnLine` | crates/wvad/src/filters.rs:131-151 | on a straight line the Hull average is off by exactly its three lags |
| `LineLaws.MeansMove` | crates/wvad/src/filters.rs:38-101 | one more value takes the place of the oldest in the simple mean, and moves the weighted mean by two parts in len + 1 of its distance from the simple one |
| `LineLaws.EvenVolumeIsSimple` | crates/wvad/src/filters.rs:104-121 | at even volume the volume-weighted mean is the simple one; without volume there is none |
| `LineLaws.EmaMoves` | crates/wvad/src/filters.rs:52-71 | one more value moves the mean by two parts in len + 1 toward it; the first value starts it |
| `LineLaws.RmaMoves` | crates/wvad/src/filters.rs:73-88 | one more value moves the mean by one part in len toward it; the first mean starts it |
| `LineLaws.KalmanMoves` | crates/wvad/src/filters.rs:174-196 | the gain follows from the gain before it, moves the estimate, and a bar without a value forgets it |
| `Adaptive.Filter.Update` | crates/wvad/src/filters.rs:241-264 | the selected of nine kinds over the bars that have a WVAD sum, the two chained kinds included |
| `Readiness.SignalLine.Update` | crates/wvad/src/engine.rs:252-275 | WVAD sum, filter, signal line and crossover of one bar over the whole history |
| `Readiness.ExistsFromLatency` | crates/wvad/src/filters.rs:241-264 | each filter gives a value exactly from its latency on |
| `Readiness.SignalExists` | crates/wvad/src/engine.rs:253-256 | the signal line exists exactly from bar wvad_len + latency + signal_len - 2 on; for Triple VWMA while no filter length of bars is without volume |
| `Readiness.SignalNeedsVolume` | crates/wvad/src/filters.rs:114-121 | with Triple VWMA the line is there on every bar from its first on exactly when no filter length of consecutive bars is all without volume |
| `CrossLaws.RawIsBodyOverRange` | crates/wvad/src/engine.rs:253 | a bar's pressure is to its volume what its body is to its range |
| `CrossLaws.WvadIsBounded` | crates/wvad/src/engine.rs:253-255 | the WVAD sum never exceeds the volume of its bars and leans to the side of their bodies |
| `CrossLaws.WvadMoves` | crates/wvad/src/engine.rs:253-254 | one more bar adds its pressure to the WVAD sum and takes away that of the bar that leaves |
| `CrossLaws.CrossesExactly` | crates/wvad/src/engine.rs:269-274 | a bar crosses up exactly when the line is over its signal and one bar before existed and was not; down mirrored; never both |
| `CrossLaws.NoUnseenCrossing` | crates/wvad/src/engine.rs:269-274 | while the line exists it changes sides only with a crossing in between |
| `Readiness.WarmupCovers` | crates/wvad/src/params.rs:103-112 | the minimum warm-up covers the first signal exactly when the filter is not HMA, or its length is at most 20, or another indicator is slower |
| `Readiness.WarmupAlwaysCovers` | crates/wvad/src/params.rs:103-112 | for every choice of the other lengths exactly when not HMA or at most 20 |

## Left out

- HTTP, TLS and WebSocket transport, login, credentials, Redis, lock files, the dashboard writer: input and output.
- The order dispatcher with its cap of 10 lots, paper broker, keys, outage handling and the reservation script of the adapter: their rules are the arbitrary broker of `Orders`.
- ATR and ADX: they wrap an external library; arbitrary inputs here.
- Status, reject counters, volume ratio, strength, score and grade: diagnostics that do not move a trade.
- The sniper, sats and lorentzian models: they repeat the same trade shape.
- Report columns that copy or format another value (targets, executed entry, net points, grade, times as text).
- Configuration parsing, CSV and report text, logging, chart points.
- The fixed-offset packet parser: a packet is given by its decoded fields.
- Retry timing of the backfill fetch: an attempt may come at any time and may be given up at any time.
- The error texts of reconciliation: failures are integrity or lag.
- Wvad.Engine.Feed: takes the indicator values of the bar as inputs, because they come from `Readiness.SignalLine` and from the external ATR and ADX.
- LiveHistory.LiveMatchesHistory: leaves open interest out, because a candle's open interest is also refreshed by quote packets.
- Orders.HaltedRunUnwinds: assumes no further time-out and no fill of an order that is not in flight, because an order given up or cancelled may still fill.
- BacktestRuns.RowsAreWhole: states the exact points and not the two decimals of the report.
