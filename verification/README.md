# Trading bot: verified model

A Dafny model of the futures trading bot's hard core, with proofs. Decimals are exact reals; every quantity
fetched from an exchange, a clock or a quote is a parameter or a nondeterministic answer.

| file | what it models |
|---|---|
| `TradingTypes.dfy`, `DecimalUtils.dfy` | shared words; step and tick rounding |
| `BinanceFilters.dfy`, `PositionSizing.dfy` | symbol filters and the size of an order |
| `Roi.dfy`, `TriggerPrices.dfy` | ROI, stop and target prices, and how exchange triggers agree with the software rules |
| `LeverageSearch.dfy`, `OrderFill.dfy` | choosing the leverage of an opening and waiting for its fill |
| `Exchange.dfy` | the exchange as the order engine sees it: calls fail before or after taking effect |
| `ProtectiveOrders.dfy`, `OrderEngine.dfy` | getting both protective orders live, recovering, closing in an emergency, refreshing |
| `LossAddition.dfy`, `AdditionTasks.dfy` | adding to a losing position as a compensating transaction; the ladder of additions, also from interleaved tasks |
| `PaperLedger.dfy`, `AverageCost.dfy` | the paper account against the list of its fills, and against an average-cost account of its trades |
| `TriggerEngine.dfy`, `PaperAdapter.dfy` | the paper exchange's conditional orders, and the class itself |
| `PositionExit.dfy`, `PositionMonitor.dfy` | exit rules with a running peak; closing from interleaved tasks |
| `TradingRisk.dfy`, `StatisticsTasks.dfy` | daily statistics and the portfolio gate; concurrent closings and checks of one day |
| `Reconciliation.dfy`, `ReconciliationTask.dfy` | comparing and healing the two books; the run-state machine |
| `DistributedLock.dfy` | the Redis lease lock |

Code that updates objects is modelled by classes and loops proved against functions; the main results are
about those functions, over every run, schedule or answer of the exchange. `dafny verify dfyconfig.toml` checks
everything.

What is assumed of the exchange stands in the contracts of `Exchange.FuturesExchange`: an order may take effect
although its call fails; queries of open orders answer; where -4130 is enforced
(`services/worker/worker/order_engine.py:86`) a purpose that is covered accepts no second closePosition order; a
reported fill is exact.

Where a promise is not kept by the code, the exact condition is proved and a concrete run shows the rest:

- A limit order larger than an opposite paper position keeps the old entry price, so the account drifts from
  the list of fills (`PaperLedger.DriftFreeIff`, `PaperLedger.OversizedLimitLosesTrack`).
- A second exit order can execute (`PositionMonitor.ExactlyOnceExit`), and a second closing transaction can fail on the
  unique index (`PositionMonitor.FailedCloseIff`), each under stated conditions. The closing commit lies inside the
  guard when the notification's own commit succeeds (`services/worker/worker/position_monitor.py:450`), and after it
  otherwise. A second Trade row is never committed (`PositionMonitor.OneTradeRow`).
- A recorded position can be OPEN again (`PositionMonitor.RecordedIsClosedIff`,
  `PositionMonitor.RefusalReopensRecorded`).
- A refused exit can leave an open position flagged as protected without its orders (`PositionMonitor.FlagLiesIff`,
  `PositionMonitor.RefusalCanUnprotect`).
- More additions than the maximum can execute when tasks hold stale copies of the row
  (`AdditionTasks.WithinIff`, `AdditionTasks.StaleCopiesExceed`), and an addition that overlaps a close can stay open
  behind it (`AdditionTasks.OverlapLeaves`).
- The daily statistics can miss trades or get a second row, and the gate with them (`StatisticsTasks.RowsAreDayIff`,
  `StatisticsTasks.LostLoss`, `StatisticsTasks.DuplicateRow`).
- A trade cycle can open a position in SAFE_MODE or EMERGENCY_STOPPED (`ReconciliationTask.GatedOpenIff`,
  `ReconciliationTask.OpensInSafeMode`).
- A critical reconciliation overwrites any other reason, and the next clean one resumes trading
  (`ReconciliationTask.RunsEndAsVerdict`, `ReconciliationTask.EmergencyStopCanBeLost`).
- What the wait for the opening order reports need not be all it fills: one reported as not filled, or adopted
  partially, stays live (`OrderFill.UnsettledIff`, `OrderFill.UnfilledCanFillLater`, `OrderFill.PartialFillCanGrow`).
- When no leverage passes, the leverage search may raise where None was expected (`LeverageSearch.RaisesIff`,
  `LeverageSearch.SearchCanRaise`); it never raises while a leverage passes.
- SHORT quantities are not healed (`Reconciliation.HealThenReconcile`, `Reconciliation.ShortQuantityIsNotHealed`).
- The lock's extend takes no notice of who holds the key, so it excludes only under a condition
  (`DistributedLock.ExcludesIff`, `DistributedLock.LateExtendDoubles`, `DistributedLock.ForeignExtendShortens`). No
  caller extends, and without that it always excludes (`DistributedLock.ExcludesWithoutExtend`).
- The documented break-even lock decides only when callback exceeds activation
  (`PositionExit.BreakEvenNeverDecides`, `PositionExit.BreakEvenDecidesOtherwise`).

## Model

| member | source | states |
|---|---|---|
| `DecimalUtils.RoundDownIsGreatestMultiple` | packages/shared/shared/decimal_utils.py:36-48 | rounding a non-negative value down keeps exactly the step multiples that fit below it: the result is the greatest of them, less than one step away |
| `DecimalUtils.RoundUpIsLeastMultiple` | packages/shared/shared/decimal_utils.py:69-73 | rounding up keeps exactly the multiples that cover the value: the result is the least of them |
| `DecimalUtils.RoundingOfNegatives` | packages/shared/shared/decimal_utils.py:36-57 | what the same modes do below zero: down moves towards zero, up away from it, each by less than a step |
| `DecimalUtils.RoundHalfUpIsNearest` | packages/shared/shared/decimal_utils.py:36-57 | ROUND_HALF_UP takes the nearest multiple, of two equally near the one away from zero |
| `DecimalUtils.QuantizeFixesMultiples` | packages/shared/shared/decimal_utils.py:36-57 | a value already on the grid is returned unchanged by every mode, so rounding twice is rounding once |
| `BinanceFilters.RefusedForFirst` | packages/shared/shared/binance_filters.py:134-167 | the order is refused for a reason exactly when that filter, by itself, refuses it and none tried before it does; accepted iff none does |
| `PositionSizing.ThresholdIsLeast` | packages/shared/shared/binance_filters.py:134-167 | a number of steps passes every minimum filter iff it reaches one threshold, the least multiple not below any minimum |
| `PositionSizing.StepsAffordable` | packages/shared/shared/position_sizing.py:60-66 | the sized quantity is the greatest number of steps whose notional margin times leverage pays for |
| `PositionSizing.SizingSucceedsIff` | packages/shared/shared/position_sizing.py:49-94 | for every input, sizing accepts iff the inputs are admissible, margin times leverage reaches the notional of the threshold order, and the maximum, price and balance bounds hold |
| `PositionSizing.SizingRefusedFor` | packages/shared/shared/position_sizing.py:60-94 | with admissible inputs the refusal is: quantity zero iff one step costs more than the margin pays for; else the filter that refuses the quantity; else the balance |
| `PositionSizing.RequiredMarginWithinUserMargin` | packages/shared/shared/position_sizing.py:79-85 | the chosen order never needs more than the user's margin |
| `PositionSizing.ToleranceBranchUnreachable` | packages/shared/shared/position_sizing.py:79-85 | no input at all is refused by the 0.5% tolerance branch: it is dead code |
| `PositionSizing.AcceptedOrder` | packages/shared/shared/position_sizing.py:66-94 | an accepted order passes the filters, costs at most the given margin, and no larger step multiple is affordable |
| `PositionSizing.SuggestedMarginIsLeast` | packages/shared/shared/binance_filters.py:118-131 | the suggested margin is the least whole number of cents that reaches the threshold order at that leverage |
| `PositionSizing.RequiredMinMarginPasses` | packages/shared/shared/binance_filters.py:118-131 | the same of the required minimum margin by itself, whatever margin was offered |
| `PositionSizing.SuggestedMarginPassesMinimums` | packages/shared/shared/position_sizing.py:49-94 | every sizing with admissible inputs suggests a margin; sizing again with it passes every minimum filter, iff some minimum is positive, and otherwise it is not even a positive margin |
| `Roi.RoiIsLeveragedMove` | packages/shared/shared/roi.py:172-188 | the ROI computed through margin and profit is the favourable price move over the entry, times 100 and the leverage, whatever the quantity |
| `Roi.RoiAtComputedPrices` | packages/shared/shared/roi.py:57-112 | round trip: at the computed prices the gross ROI is the target plus round-trip fees for the profit, and minus (target less fees, not below zero) for the stop |
| `Roi.StopRaisesIff` | packages/shared/shared/roi.py:57-112 | the calculation refuses a stop exactly for a LONG whose fee-corrected stop target is at least 100 times the leverage |
| `Roi.StopRaisesAlike` | packages/shared/shared/roi.py:57-112 | whether it refuses does not depend on entry price or quantity |
| `Roi.LiquidationBalances` | packages/shared/shared/roi.py:115-143 | exactly one price leaves, of the margin, the maintenance rate's share of the opening notional; the estimate is that price, or zero when it is negative |
| `Roi.LiquidationIsALoss` | packages/shared/shared/roi.py:115-143 | a positive estimate lies on the losing side of the entry iff the rate is below 1/leverage |
| `Roi.LiquidationNearsEntry` | packages/shared/shared/roi.py:115-143 | at the same rate a higher leverage moves it strictly up for a LONG and down for a SHORT, from the losing side towards the entry |
| `Roi.DistanceFromBalance` | packages/shared/shared/roi.py:146-159 | the distance reaches a minimum iff the stop lies ahead of that price by the given percentage of it; with no positive price to be liquidated at, iff the minimum is at most 100 |
| `Roi.DistanceMeansSide` | packages/shared/shared/roi.py:146-159 | a stop whose liquidation distance reaches a positive minimum lies strictly on the entry side of a positive liquidation price |
| `TriggerPrices.RoundingMovesAway` | services/worker/worker/order_engine.py:444-453 | rounding a trigger moves it by less than one tick and only away from the entry, onto the tick grid |
| `TriggerPrices.NegativeTargetRoundsBack` | services/worker/worker/order_engine.py:444-453 | the one exception: a short target below zero is rounded back towards the entry, and stays at or below zero |
| `TriggerPrices.ExchangeTargetImpliesSoftwareTarget` | packages/shared/shared/position_exit.py:42-43 | any mark that fires the rounded exchange target also makes the software rules take profit |
| `TriggerPrices.SoftwareStopImpliesExchangeStop` | packages/shared/shared/position_exit.py:45-46 | any mark at the software stop has passed the unrounded exchange stop |
| `TriggerPrices.SoftwareStopClearsFees` | packages/shared/shared/roi.py:57-112 | at the software stop the mark is a whole round trip of fees beyond the exchange stop |
| `TriggerPrices.SoftwareStopFiresRoundedStop` | services/worker/worker/order_engine.py:444-453 | hence it has passed the rounded exchange stop too as soon as the fees are worth one tick |
| `LeverageSearch.FirstSorted` | services/worker/worker/order_engine.py:570-580 | the bracket used is one that takes the notional, with the lowest number among those that do |
| `LeverageSearch.PickMaintenanceMarginRate` | services/worker/worker/order_engine.py:570-580 | if some bracket takes the notional, the rate is that of one with the lowest number among those that do |
| `LeverageSearch.PassesIff` | services/worker/worker/order_engine.py:583-667 | a leverage passes iff sizing accepts, the triggers can be computed and the rounded stop lies ahead of the price at which the margin balances by the minimum distance |
| `LeverageSearch.SelectLeverageForOpen` | services/worker/worker/order_engine.py:627-669 | main result: the greatest leverage in 1..requested that passes both checks is returned whenever one passes, with the liquidation price at which its margin balances; when none does the answer is None, or the error of the greatest leverage that is not skipped |
| `LeverageSearch.RaisesIff` | services/worker/worker/order_engine.py:583-624 | a leverage raises exactly on a bad step size, or on an affordable order with a bad tick size or with a LONG stop ROI at or above a named limit |
| `LeverageSearch.RaisedMeansNoneBelowPasses` | services/worker/worker/order_engine.py:583-669 | where a leverage raises, no leverage at or below it passes, so an error never hides a usable one |
| `LeverageSearch.SearchCanRaise` | services/worker/worker/order_engine.py:583-624 | a concrete request at 1x that ends in the error |
| `LeverageSearch.FoundIsSafe` | services/worker/worker/order_engine.py:656-667 | a leverage that passes buys a valid order within the margin whose rounded stop is strictly on the entry side of liquidation |
| `LeverageSearch.FillPricesDoNotRaise` | services/worker/worker/order_engine.py:825-849 | once a leverage was found, the trigger prices can be recomputed for every fill price and quantity: no error strikes between the fill and the position row |
| `OrderFill.EntryOrder.AbortPending` | services/worker/worker/order_engine.py:456-494 | the order is cancelled and exactly the quantity last seen is taken back; what was filled unseen stays open |
| `OrderFill.EntryOrder.AwaitFill` | services/worker/worker/order_engine.py:520-567 | the wait ends at the first pass that decides, after at most nine answers, with the outcome that pass calls for; what it reports is unsettled iff ten looks showed no final status; only a changed score cancels the order, and then exactly what was filled unseen stays open |
| `OrderFill.WaitMeans` | services/worker/worker/order_engine.py:537-567 | the wait goes on exactly while the order is undecided and its score still valid, for nine queries at most; it ends ScoreChanged iff a scored pass on an undecided order finds the score invalid, else by what is executed |
| `OrderFill.UnsettledIff` | services/worker/worker/order_engine.py:537-567 | main result: a wait not given up for the score leaves more to fill than it reports iff it went through all ten looks and none of them showed a final status |
| `OrderFill.UnfilledCanFillLater` | services/worker/worker/order_engine.py:565-567 | a wait over nine unmoved answers that reports not filled, of an order that can still fill completely |
| `OrderFill.PartialFillCanGrow` | services/worker/worker/order_engine.py:565-566 | a wait that adopts a partial fill while the rest can still fill |
| `ProtectiveOrders.FindOpenProtectiveAlgo` | services/worker/worker/order_engine.py:99-107 | finds a live closePosition order of the purpose iff there is one |
| `ProtectiveOrders.ExchangeHasBoth` | services/worker/worker/order_engine.py:110-123 | the two flags are exactly whether each purpose is covered on the exchange |
| `ProtectiveOrders.AttachExisting` | services/worker/worker/order_engine.py:126-169 | the returned row describes the live order, with its trigger; every other row is untouched and no client id is shared |
| `ProtectiveOrders.SubmitUntilAccepted` | services/worker/worker/order_engine.py:957-1003 | the k-th submission is the rounded price moved k-1 ticks from the entry, all of them under one client id, positive from the second on; it stops exactly when an answer settles it, after ten, or when the next trigger is not positive |
| `ProtectiveOrders.PlaceProtectiveOrder` | services/worker/worker/order_engine.py:934-1026 | True iff the last answer was accepted, or -4130 with an order of the purpose live: then a live order of the purpose and its NEW row; False means a REJECTED row and one CRITICAL event; rows of the other purpose and other live orders survive |
| `ProtectiveOrders.PlaceBoth` | services/worker/worker/order_engine.py:902-907 | first the stop is tried at the stop price, then the target at the target price, each rounded and moved fewer than ten ticks; whatever is live after was live before or has such a trigger; True means a live order with its row's trigger; one CRITICAL event per failure |
| `ProtectiveOrders.TriedTriggersAreTicks` | services/worker/worker/order_engine.py:990-999 | every trigger tried is a whole number of ticks and exactly k ticks further from the entry than the first |
| `OrderEngine.PricesAim` | services/worker/worker/order_engine.py:236-254 | the two prices are where the position's ROI reaches the fee-corrected stop and target, rounded away by less than a tick |
| `OrderEngine.PlacedOrdersAim` | services/worker/worker/order_engine.py:934-1003 | every order placed for a position is on the side that reduces it, closes it whole, and triggers within ten ticks beyond the price where its ROI reaches the target of the order's own purpose |
| `OrderEngine.TryRecover` | services/worker/worker/order_engine.py:172-196 | recovers iff both purposes are covered on the exchange, and then flag and ids are true of it |
| `OrderEngine.EmergencyClose` | services/worker/worker/order_engine.py:1481-1525 | a covered position is never closed; otherwise exactly one reduce-only order for its quantity leaves it CLOSED and flat, or, iff it is reported failed, exactly one CRITICAL event is appended and SAFE_MODE set on the default row |
| `OrderEngine.RecordOrClose` | services/worker/worker/order_engine.py:199-220 | both placed: the ids are recorded; after a failed placement: recovered iff both purposes are covered, else closed or alarmed, with one CannotClose event exactly when the close fails |
| `OrderEngine.ProtectOpenedPosition` | services/worker/worker/order_engine.py:897-918 | main result: whatever placements, cancels and lost acknowledgements do, the position ends protected, or closed with the exchange flat, or alarmed; it is opened iff both purposes are covered, and never closed while they are; the stop is tried at the stop price and the target at the target price, and nothing else is live that was not; the CRITICAL events are exactly one per failed placement and one for a failed close |
| `OrderEngine.CancelProtectiveOrders` | services/worker/worker/order_engine.py:64-83 | both recorded ids and then all orders are asked to be cancelled; flag and ids always go, whatever the exchange answers; the rows of both ids end CANCELED or FILLED; no order appears |
| `OrderEngine.RefreshProtectiveOrders` | services/worker/worker/order_engine.py:223-276 | the flag is exactly the returned value and stays honest; each purpose is tried at its own new price, and nothing else is live that was not; one CRITICAL event per failed placement; it raises iff the prices cannot be computed, and then touches nothing |
| `OrderEngine.PricesRaiseAlike` | services/worker/worker/order_engine.py:236-254 | a position whose prices were computable once can be refreshed at every entry price and quantity |
| `LossAddition.PartWithinMargin` | services/worker/worker/order_engine.py:290-311 | any part of the order that sizing accepts at the mark takes at most the trade margin at the position's leverage |
| `LossAddition.Rebook` | services/worker/worker/order_engine.py:346-375 | the book is the given one and both orders are placed again at its prices: True only with both live, None iff the prices cannot be computed, and an event iff False |
| `LossAddition.AdditionConserves` | services/worker/worker/order_engine.py:358-367 | the notional grows by exactly the fill's, one trade margin is added, and a commission that was the rate's share of the notional stays so |
| `LossAddition.RevertAddition` | services/worker/worker/order_engine.py:382-409 | exactly the added quantity is sold back; it completes iff that order is acknowledged and the prices can be computed, and then restores the book with no excess at the exchange; otherwise the flag is down |
| `LossAddition.RevertCanRefresh` | services/worker/worker/order_engine.py:377-404 | once the first refresh returned, the one inside the revert cannot raise |
| `LossAddition.AddToPositionOnLoss` | services/worker/worker/order_engine.py:279-431 | main result: an order is sent iff sizing accepts, for exactly its quantity, and what was filled takes at most the trade margin; NotPlaced, SizingRaised and RefreshRaised each exactly under their cause; on every path the exchange moves by exactly what the local quantity moves by, plus fills whose acknowledgement was lost; a completed revert restores entry, quantity, margin, commission and count; the flag stays honest |
| `LossAddition.MaintainPosition` | services/worker/worker/order_engine.py:223-431 | over any run of refreshes and additions up to the first lost acknowledgement, the flag is honest and the local quantity is the exchange's |
| `LossAddition.MergedEntryBetween` | services/worker/worker/order_engine.py:361-364 | the merged entry lies strictly between the old entry and the fill, and conserves cost |
| `LossAddition.EntryTowardsMarkRaisesRoi` | packages/shared/shared/roi.py:172-188 | moving the entry towards the mark strictly raises a negative ROI and keeps it negative, whatever the quantities |
| `LossAddition.AddOrStop` | packages/shared/shared/loss_add.py:33-49 | at or below the trigger a normal position that may still be added to is either stopped out or added to, never both; above it nothing is added |
| `LossAddition.AdditionIsSafe` | services/worker/worker/position_monitor.py:256-300 | an addition filled at the mark moves the entry towards it, strictly raises the ROI, keeps it negative, and triggers no exit rule |
| `LossAddition.LadderIsBounded` | packages/shared/shared/loss_add.py:33-49 | when each evaluation starts from the current row: over every run the count stays within its maximum, the margin is the initial one plus one trade margin per addition, entry and quantity stay positive |
| `AdditionTasks.CountIsExactIff` | services/worker/worker/position_monitor.py:256-298 | main result: over every schedule of tasks with their own copies the stored count stays within its maximum and the margin follows it, and the count counts every executed addition iff none started from a stale copy |
| `AdditionTasks.WithinIff` | services/worker/worker/position_monitor.py:264-298 | main result: the additions executed stay within the maximum on every schedule iff stale copies are ruled out or the rules never add |
| `AdditionTasks.StaleCopiesExceed` | services/worker/worker/position_monitor.py:131-196 | the failing schedule: one task more than the maximum loads the row before the first addition, every one adds, the row records one |
| `AdditionTasks.OverlapLeaves` | services/worker/worker/position_monitor.py:277-318 | main result: once an addition and a close that overlaps it are over, the addition's whole fill is left open unless it was taken back or the closing task loaded the row with it |
| `PaperAdapter.PaperFuturesAdapter.PlaceMarketOrder` | packages/shared/shared/binance/paper_adapter.py:262-350 | open, add, reduce, close and flip update the account exactly as the ledger value does, and as average cost demands |
| `PaperAdapter.PaperFuturesAdapter.PlaceLimitOrder` | packages/shared/shared/binance/paper_adapter.py:352-417 | the same without the flip branch: the entry of an opposite position is kept whatever the size |
| `PaperAdapter.PaperFuturesAdapter.ApplyFunding` | packages/shared/shared/binance/paper_adapter.py:562-576 | funding moves the wallet by the signed fee returned, and nothing else |
| `PaperAdapter.PaperFuturesAdapter.PlaceAlgo` | packages/shared/shared/binance/paper_adapter.py:430-455 | the order goes to the end, or takes the place of the one of the same id; all others stay in order |
| `PaperAdapter.PaperFuturesAdapter.CancelAlgoOrder` | packages/shared/shared/binance/paper_adapter.py:466-467 | True iff the id was open; exactly that order goes, the others stay in order |
| `PaperAdapter.PaperFuturesAdapter.OnMarkPriceUpdate` | packages/shared/shared/binance/paper_adapter.py:477-546 | the loop over the snapshot, deleting as it fills, computes the fold of the trigger engine and returns exactly the orders it fills |
| `PaperLedger.OneFill` | packages/shared/shared/binance/paper_adapter.py:262-350 | for any reference price, realised profit plus change of open value is the fill's own value, up to the drift of an oversized limit order |
| `PaperLedger.LedgerRefinesFills` | packages/shared/shared/binance/paper_adapter.py:262-576 | main result: over every run and every reference price, wallet plus open value is start plus the value of the list of fills, less commissions, plus funding, plus that drift; quantities agree; wallet is start plus realised, less commissions, plus funding |
| `PaperLedger.DriftFreeIff` | packages/shared/shared/binance/paper_adapter.py:383-397 | an event drifts iff it is a limit order larger than the opposite position it meets, away from its entry price |
| `PaperLedger.NoDriftWithoutOversizedLimits` | packages/shared/shared/binance/paper_adapter.py:383-397 | a run without such orders has no drift, so the refinement is exact |
| `PaperLedger.OversizedLimitLosesTrack` | packages/shared/shared/binance/paper_adapter.py:383-397 | a concrete run on which wallet plus open value, at any prices, is 20 below the list of fills |
| `AverageCost.OrderIsAccounted` | packages/shared/shared/binance/paper_adapter.py:262-417 | an order in the position's direction realises nothing and averages the cost; an opposite one realises the closed quantity times price minus entry (LONG) or entry minus price (SHORT) and leaves the entry of the rest; the wallet moves by that less quantity times price times rate; margin, mark and other symbols likewise |
| `AverageCost.RealizedIsBooked` | packages/shared/shared/binance/paper_adapter.py:262-417 | main result: over every run the realised total is the result of an average-cost account of the list of trades, and every position is carried at what its quantity cost |
| `AverageCost.MarginsAreBacked` | packages/shared/shared/binance/paper_adapter.py:262-417 | over every run that changes no leverage under an open position, isolated margin times leverage is quantity times entry price |
| `AverageCost.OtherEventsAre` | packages/shared/shared/binance/paper_adapter.py:477-576 | a mark update moves one mark, funding the wallet by the signed quantity times mark times rate, a leverage change no position |
| `TriggerEngine.ClosingFill` | packages/shared/shared/binance/paper_adapter.py:516-524 | a triggered order on the closing side removes the position; one on the position's own side doubles it, since reduce-only is not enforced |
| `TriggerEngine.UpdateThatHits` | packages/shared/shared/binance/paper_adapter.py:477-546 | one update closes a guarded position with the first triggered order in insertion order and cancels every other triggered one |
| `TriggerEngine.RunWithoutPosition` | packages/shared/shared/binance/paper_adapter.py:505-515 | with no position, whole runs only cancel: exactly the orders ever crossed |
| `TriggerEngine.FirstPassageDecides` | packages/shared/shared/binance/paper_adapter.py:477-560 | main result: over every tick sequence exactly the order crossed first is FILLED and closes the position, the wallet moving by (price - entry) times quantity less commission; others ever crossed end CANCELED with nothing executed, the rest stay open, and before that nothing but the mark moves |
| `TriggerEngine.OppositeBarriersExclude` | packages/shared/shared/binance/paper_adapter.py:548-560 | a stop and a target on opposite sides of the entry never trigger on the same mark, so which is first is decided by price alone |
| `TriggerEngine.StopFillsIff` | packages/shared/shared/binance/paper_adapter.py:477-560 | main result in prices: with stop and target on opposite sides of the entry, the stop fills over any tick sequence iff some mark reaches it before any mark reaches the target |
| `TriggerEngine.UpdateRunsAs` | packages/shared/shared/binance/paper_adapter.py:477-546 | a price update is a mark update followed by one market order per fill |
| `TriggerEngine.AdapterRefinesFills` | packages/shared/shared/binance/paper_adapter.py:262-576 | main result: every run of the adapter, fills of triggered orders included, is worth what its list of fills is worth, less commissions, plus funding, plus the limit-order drift, and has realised the average-cost result of its trades |
| `PositionExit.PeakMap.Register` | services/worker/worker/position_monitor.py:45-47 | the stored peak becomes the maximum of itself and the ROI |
| `PositionExit.PeakMap.Watch` | services/worker/worker/position_monitor.py:300-312 | over any ROI series the online exit is the first index at which the offline rule fires, with the same reason; the stored peak is the maximum; other positions are untouched |
| `PositionExit.ExitIsUnique` | packages/shared/shared/position_exit.py:20-55 | the offline definition admits one exit |
| `PositionExit.BreakEvenNeverDecides` | packages/shared/shared/position_exit.py:48-53 | with callback at most activation, dropping the break-even lock changes no decision |
| `PositionExit.BreakEvenDecidesOtherwise` | packages/shared/shared/position_exit.py:48-53 | with callback above activation it does decide |
| `PositionExit.LargerCallbackExitsLater` | packages/shared/shared/position_exit.py:48-53 | over any series a larger callback never exits earlier, and at the same index for the same reason |
| `PositionMonitor.GuardIsExclusive` | services/worker/worker/position_monitor.py:322-417 | on every schedule the id is in the guard set exactly while one task is inside, and never two |
| `PositionMonitor.ExactlyOnceExit` | services/worker/worker/position_monitor.py:322-372 | main result: at most one exit order executes on every schedule iff the exchange enforces reduce-only, or the commit is inside the guard and no acknowledgement is lost |
| `PositionMonitor.OneTradeRow` | packages/shared/shared/db/models_trading.py:138-144 | main result: on every schedule, whatever the surroundings guarantee, at most one Trade row is committed, and one is whenever the position is CLOSED |
| `PositionMonitor.RecordedIsClosedIff` | services/worker/worker/position_monitor.py:363-372 | main result: a recorded position is CLOSED on every schedule iff the closing commit is inside the guard or failed exits are rolled back |
| `PositionMonitor.FailedCloseIff` | services/worker/worker/position_monitor.py:455-509 | main result: a closing transaction can fail on the unique index iff the commit may lie outside the guard |
| `PositionMonitor.LostAckTwice` | services/worker/worker/position_monitor.py:352-372 | the schedule on which a lost acknowledgement leads to a second exit |
| `PositionMonitor.LateCommitExitsTwice` | services/worker/worker/position_monitor.py:369-372 | the schedule on which a late commit leads to a second exit |
| `PositionMonitor.LateCommitFailsClose` | services/worker/worker/position_monitor.py:375-417 | the schedule on which the ghost-position path fails on the unique index after a late commit |
| `PositionMonitor.RefusalReopensRecorded` | services/worker/worker/position_monitor.py:363-367 | the schedule on which the refresh loop commits OPEN over a recorded CLOSED after a refused exit |
| `PositionMonitor.RefusedExitCanBeRetried` | services/worker/worker/position_monitor.py:363-372 | a refused exit leaves the position OPEN, unrecorded and out of the set, with nothing pending when rolled back and OPEN pending in the refresh loop; from either some later schedule closes it with one more exit order |
| `PositionMonitor.FlagLiesIff` | services/worker/worker/position_monitor.py:336-348 | main result: on every schedule, while the flag is set the protective orders are gone iff some task cancelled them for an exit and no refresh has placed them since |
| `PositionMonitor.RefusalCanUnprotect` | services/worker/worker/position_monitor.py:339-367 | a refused exit can leave an open position with its flag set and its protective orders cancelled |
| `TradingRisk.TrailingLosses` | services/worker/worker/position_monitor.py:553-558 | the length of the run of trades without profit at the end of the day: all of them without profit, the one before with |
| `TradingRisk.EveryTradeWinsOrLoses` | services/worker/worker/position_monitor.py:552-558 | wins and losses add up to the number of trades |
| `TradingRisk.CountedIsSummary` | services/worker/worker/position_monitor.py:547-562 | counting one trade turns the summary of a day's trades into the summary of the longer day |
| `TradingRisk.DailyRows.UpdateDailyStatistics` | services/worker/worker/position_monitor.py:547-562 | the commit writes the fields the session changed in its copy, or a new row where it saw none |
| `TradingRisk.GateAnswers` | packages/shared/shared/trading_risk.py:119-150 | the gate refuses iff some check refuses, and for the day's loss before the losing run |
| `TradingRisk.RefusedForFirst` | packages/shared/shared/trading_risk.py:119-150 | a signal is refused for a reason exactly when that check, by itself, refuses it and none made before it does |
| `TradingRisk.RowDecidesAsDay` | packages/shared/shared/trading_risk.py:88-93 | where the row is the day's summary, it refuses iff the day's trailing run of trades without profit or its loss has reached its limit |
| `TradingRisk.DailyRows.CheckSignal` | packages/shared/shared/trading_risk.py:82-150 | a signal is let through iff every other check passes and the row's losses do not refuse it; the check fails iff it finds several rows, and creates a missing one |
| `StatisticsTasks.RowsAreDayIff` | services/worker/worker/position_monitor.py:547-562 | main result: over every schedule of closings and signal checks of one customer, mode and day, the rows are the fold of the closed trades iff no session wrote from an overtaken copy |
| `StatisticsTasks.GateFollowsDay` | packages/shared/shared/trading_risk.py:88-93 | main result: after such a schedule the gate refuses for the day's losses iff the trades closed that day call for it |
| `StatisticsTasks.LostLoss` | services/worker/worker/position_monitor.py:552-562 | two losses that close together: the row keeps one, and a gate with a limit of two lets the next signal through |
| `StatisticsTasks.DuplicateRow` | packages/shared/shared/tenant_scope.py:23-49 | on a day without a row both create one; every later closing and check then fails at its look |
| `Reconciliation.CompareSymbol` | packages/shared/shared/reconciliation.py:60-106 | for one symbol, exactly the mismatches their meaning calls for |
| `Reconciliation.Reconcile` | packages/shared/shared/reconciliation.py:48-124 | each of the four lists holds exactly the symbols its meaning calls for: sound and complete |
| `Reconciliation.ConsistentIff` | packages/shared/shared/reconciliation.py:113-124 | consistent iff both books hold the same symbols, agree on side, quantity and entry within tolerance, and every position has a NEW stop and a NEW target |
| `Reconciliation.Heal` | services/worker/worker/position_monitor.py:99-128 | the rows left open and the symbols reported as ghosts |
| `Reconciliation.HealedBook` | services/worker/worker/position_monitor.py:235-240 | the healed book, symbol by symbol: synced where the exchange has it, dropped otherwise unless a close is in progress |
| `Reconciliation.HealThenReconcile` | services/worker/worker/reconciliation_task.py:22-93 | main result: healing and then comparing on one snapshot leaves a ghost only where a close is in progress, an entry mismatch only where the exchange entry is not positive, and a quantity mismatch exactly on SHORT positions that differed |
| `Reconciliation.ShortQuantityIsNotHealed` | services/worker/worker/position_monitor.py:235-240 | a SHORT of 1 against 2 on the exchange is still reported after healing |
| `ReconciliationTask.CriticalMismatches` | packages/shared/shared/reconciliation_policy.py:9-18 | every critical mismatch as often as it was found, and nothing else |
| `ReconciliationTask.CriticalMismatchesInOrder` | packages/shared/shared/reconciliation_policy.py:17-18 | the filter distributes over concatenation, so it keeps the order |
| `ReconciliationTask.RunsEndAsVerdict` | services/worker/worker/reconciliation_task.py:99-127 | main result: the state after any series of runs in closed form; a reason other than reconciliation survives exactly while no run is critical |
| `ReconciliationTask.EmergencyStopCanBeLost` | services/worker/worker/reconciliation_task.py:108-127 | a critical run and then a clean one turn EMERGENCY_STOPPED into RUNNING |
| `ReconciliationTask.GatedOpenIff` | services/worker/worker/main.py:262-313 | main result: on every schedule of cycles and writes, an open call is made in SAFE_MODE or EMERGENCY_STOPPED iff a write gating the tenant lies between that cycle's look at the run state and its open, and none after it gates again or lifts it |
| `ReconciliationTask.GatedIff` | services/worker/worker/reconciliation_task.py:108-127 | read off the writes alone: they leave an ungated tenant gated iff some gating write among them is neither replaced nor lifted, where a start lifts an emergency stop and a clean reconciliation lifts a SAFE_MODE with its own kind of reason |
| `ReconciliationTask.OpensInSafeMode` | services/worker/worker/main.py:262-313 | the schedule: gate, critical reconciliation, open |
| `ReconciliationTask.StaysClosed` | services/worker/worker/main.py:262-267 | once gated for another reason and with no cycle past its gate, any schedule of cycles, non-critical reconciliations and stops opens nothing and keeps the reason |
| `ReconciliationTask.Tenant.ConcludeReconciliation` | services/worker/worker/reconciliation_task.py:99-127 | SAFE_MODE is entered iff some mismatch is critical; otherwise it is left only for a Reconciliation reason; a missing row starts STOPPED |
| `ReconciliationTask.Tenant.RunTradeCycle` | services/worker/worker/main.py:240-321 | an open call is made iff every gate passed when it was read; it is made gated iff what was written meanwhile gates; the lock is held for it and given back also when it raises |
| `DistributedLock.StepKeepsInv` | packages/shared/shared/distributed_lock.py:30-47 | whoever holds an unexpired lease owns the key; no late release or late extend of another client takes the key away or brings its expiry forward |
| `DistributedLock.ExcludesIff` | packages/shared/shared/distributed_lock.py:22-47 | main result: at most one client holds an unexpired lease in every timed run iff no client extends late, or all clients of the name use one TTL and none takes a late extend for a renewal |
| `DistributedLock.ExcludesWithoutExtend` | packages/shared/shared/distributed_lock.py:30-44 | with acquire and release only, as the repository uses it, the lock excludes whatever the TTLs are |
| `DistributedLock.TrySucceedsIff` | packages/shared/shared/distributed_lock.py:30-44 | main result: over every run of acquires and releases a try succeeds iff no try that got the lock, judged by the list of events alone, is both unreleased and unexpired |
| `DistributedLock.ReleaseFrees` | packages/shared/shared/distributed_lock.py:43-44 | once a holder has released, the next try of any client gets the key |
| `DistributedLock.LateExtendDoubles` | packages/shared/shared/distributed_lock.py:46-47 | the run on which a late extend taken for a renewal gives two holders |
| `DistributedLock.ForeignExtendShortens` | packages/shared/shared/distributed_lock.py:46-47 | the run on which a client with a shorter TTL shortens its successor's lease |
| `DistributedLock.SharedKey.EvalRelease` | packages/shared/shared/distributed_lock.py:9-15 | a live key that carries the caller's own token is gone afterwards; any other key is unchanged |
| `DistributedLock.SharedKey.Acquire` | packages/shared/shared/distributed_lock.py:30-41 | with any other clients at work: True means the only unexpired lease, fresh; False means the deadline passed with the key live; at most one try per started 200 ms and one more |

## Left out

- OrderEngine.ProtectOpenedPosition: starts at the fill; queries of open orders are assumed to answer, database calls to succeed, and no protective order triggers on the exchange while the protocol runs.
- OrderEngine.EmergencyClose: the profit fields of the closed row are not modelled; the code calls `compute_realized_pnl` there without importing it (`services/worker/worker/order_engine.py:30` and 1528). SAFE_MODE goes to the row with id `default` only, as in the code.
- OrderEngine.TryRecover: an order is attached by purpose and closePosition alone, as in the code, so its side and trigger are not promised to be this position's.
- Exchange.FuturesExchange.PlaceReduceOnly: fills completely up to the open quantity or not at all; partial reduce-only fills are not modelled.
- LossAddition.AddToPositionOnLoss: a ValueError of the first refresh is the outcome RefreshRaised; the caller's transaction rollback, which would forget the fill, is not modelled.
- LossAddition.LadderIsBounded: evaluations that each start from the current row; AdditionTasks.CountIsExactIff and AdditionTasks.WithinIff hold for every interleaving.
- AdditionTasks.CountIsExactIff: an addition commits in one step, while its task is in `_loss_add_in_progress`; the ROI a task evaluates is an input.
- PositionMonitor.ExactlyOnceExit: one position, one process, no restart; a write of the row waits for another transaction's, as in PostgreSQL; a refresh of the protective orders is one step and counts both as placed or neither.
- PaperAdapter.PaperFuturesAdapter.PlaceMarketOrder: positions are map values, so a position object shared between holders is not modelled; the maps of closed and open regular orders, margin type, balances and restored state are left out.
- PaperAdapter.PaperFuturesAdapter.OnMarkPriceUpdate: the market price fetched for each fill is an input.
- StatisticsTasks.RowsAreDayIff: the second writer in `services/api/app/services/position_service.py`, used for manual closes, is not modelled; keys do not share rows, so one key is modelled; a session that closes two positions counts as two, the second looking at the moment of the first one's commit.
- ReconciliationTask.GatedOpenIff: each write of the run state reads the row it changes at that moment.
- Reconciliation.HealThenReconcile: positions in progress of being closed are named by symbol where the code uses row ids.
- ReconciliationTask.Tenant.RunTradeCycle: settings, signal choice, the lock's answer and whether the open raises are inputs; the two entry paths count as one open call.
- ProtectiveOrders.AttachExisting: every live order carries a client id; the fresh id the code makes up for an order without one, which would not name that order, is not modelled.
- DistributedLock.SharedKey.Acquire: one Redis, whose clock is the only clock and whose operations are instantaneous.
- LeverageSearch.SelectLeverageForOpen: the brackets fetched at each leverage are an input.
- The 28-digit Decimal context and the scale of database columns: values are exact.
- open_position_for_signal before its order: margin type, leverage confirmation and risk events add no state to the protocol.
- Limit entries ("olta"), impulse trading, manual adds and closes through the API: other callers of the same functions.
- Indicators, signal scores, market regime: heuristics in floating point without a stated promise.
- Web UI, HTTP, signing, WebSocket, Telegram, Firebase, credentials, process locks: plumbing or operating-system bound.
