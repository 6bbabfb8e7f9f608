# PazarSync verification models

Dafny models of the four stateful cores of PazarSync, with proofs about whole runs of them.

* **Sync leases** (`SyncLog`, `RunErrors`, `LeaseRuns`, `LeaseBudget`, `RunFailures`, `RowHistory`,
  `HandOff`, `HandOffRuns`). The `sync_logs` table is a class with a map of rows. Each atomic SQL step is
  a method, proved against one function `Apply` on whole tables. Runs are arbitrary interleavings of
  acquire, claim, fenced writes and sweep, by any workers, under a clock that never runs backwards.
  `HandOff` adds the in-memory tasks, each with its own possibly outdated copy of the row, and compares
  any schedule with one uninterrupted run; `HandOffRuns` shows that schedules refine the lease runs.
* **Order intake** (`Stock`, `OrderLines`, `OrderIntake`, `OrderRuns`, `OrderSplits`, `BufferRuns`).
  Orders, their items, the live-performance buffer, variants and product totals, updated in place by the
  same routes. `OrderRuns` is about one order, `BufferRuns` about what decides its row, `OrderSplits`
  about a feed in which a split package and its children interleave.
* **Profit** (`Money`, `ProfitFormula`, `ReturnLegs`, `Breakdown`, `BreakdownLines`, `UnitPricing`,
  `FeeTable`, `OrderProfit`, `ProfitSheet`, `FeeRuns`, `FeeAmounts`, `SettledRows`, `LineFigures`,
  `FeeAgreement`, `FullReturn`, `CostSnapshot`, `StoredCost`). Money is exact (`real`); rounding is half
  away from zero and happens only where the code rounds. The fee table is mutable state of
  `ProfitSheet.OrderSheet`; `FeeRuns` speaks about any interleaving of its calls.
* **Two small algorithms** (`RateLimit` with `LimitWindows`, `ColumnCodec`).

Verify with `dafny verify dfyconfig.toml`.

## Where the code and its own words differ

The models follow the code.

* `packages/sync-core/src/sync-log.service.ts:14-24` says a task whose row was taken over cannot clobber
  the new owner's state. The fence compares worker ids only, so a worker that re-claims its own reaped
  row lets its older task write again
  (`LeaseRuns.StaleTaskPassesIffSameWorkerReclaimed`, `HandOff.SelfReclaimRewinds`).
* `packages/order-sync/src/intake-order.ts:84-93` says an order row and a buffer row never coexist.
  `OrderSplits.EverCoexistedIff` says for every life of a package when they did. A package is sold once by
  being parked on its business day and once by an order row first written costed on that day;
  `OrderRuns.SoldExactlyOnceIff` proves for every life that it is sold exactly once if and only if exactly
  one of the two happened, and `OrderSplits.CostedWhileParkedSellsTwice` shows a life with both.
* `packages/order-sync/src/intake-order.ts:77-83,95-102,121-124` says that re-adding a split ghost nets out
  with its children, and that the date on its row is the exact condition under which it had sold.
  `OrderSplits.ReversalUndoesSaleIff` gives the condition under which the re-add does undo the sale, for
  every life and every day of removal. It fails for a package first seen as cancelled, which is credited
  units it never sold (`OrderSplits.CancelledGhostIsCredited`), for one sold before midnight and removed
  after it (`OrderSplits.MidnightGhostStaysSold`), for one that sold twice, and for a promoted one whose
  lines were deduped. Even when the re-add is right, children that arrive before the removal leave the
  unsplit stock only if the shelf holds the ghost's units and theirs together
  (`OrderSplits.SplitNetsOutIff`, `OrderSplits.ChildrenFirstNetsOutIff`).
* `packages/order-sync/src/upsert-order.ts:331-350` keeps the freshest event by its date. An undated event
  passes the guard without moving the watermark, and so does one of an equal date, so delivery order can
  decide the status: exactly when two events that are undated or carry the largest date differ in status
  (`OrderRuns.DeliveryOrderIrrelevantIff`).
* `packages/profit/src/unit-pricing.ts:57-58` says net VAT is positive at a positive target price. It is
  not negative there exactly when the VAT the price brings covers the input VAT of cost and fixed fees
  (`UnitPricing.SolutionIsRealisedIff`, a condition on rates, costs and target); with one VAT rate
  throughout the remark holds (`UnitPricing.RemarkHoldsAtOneRate`), with mixed rates it can fail
  (`UnitPricing.SolvedPriceCanHaveNegativeNetVat`).
* `packages/profit/src/fold-return-legs.ts:71-75` says lists show the breakdown's net sale. A hand-entered
  refund row would be counted by the lists only (`Breakdown.HandEnteredRefundSetsListsApart`), but the
  schema's USER_OVERRIDE and MANUAL_ENTRY are written nowhere in the repository, and
  `packages/profit/src/build-profit-breakdown.ts:163-166` says such return rows do not occur. In every run
  without one the two agree (`FeeAgreement.ListsAgreeInEveryRun`).
* `packages/order-sync/src/upsert-order.ts:111-112` says the two cost-snapshot implementations must stay
  in sync. What they store agrees within a bound (`StoredCost.StoredTotalsAreClose`,
  `StoredCost.StoredRatesAreClose`) but not always exactly: 100.00 at 0% with 100.00 at 20% is stored at
  9.09 by intake and at 10 by the API, and a single profile of 1.00 at 20% and exchange rate 34.1234 at
  19.99 and 20. Components of different rates can also be stored alike, as 1000.00 at 20% with 0.01 at
  10% are. `StoredCost.OneRateStoredAlikeIff` and `StoredCost.WholeCentsStoredAlikeIff` give the exact
  conditions for one rate and for whole-cent components, `StoredCost.StoredRatesAlikeIff` for any; whole
  cents at one rate are always stored alike.
* The estimate revises every fee on re-entry except the withholding, which keeps its first amount even
  when the sale changes (`FeeRuns.FeeTableRuns`).
* The fixed window admits at most `2 * max - 1` requests in any interval of one window length, one less
  than the usual figure, because a window starts at an accepted request (`RateLimit.RateBound`,
  `RateLimit.BoundIsReached`).

## Model

| member | source | states |
|---|---|---|
| SyncLog.SyncLogTable.AcquireSlot | packages/sync-core/src/sync-log.service.ts:112-162 | a PENDING row is inserted, or the table is untouched and the active row of the same store and type is named |
| SyncLog.SyncLogTable.TryClaimNext | packages/sync-core/src/claim.ts:34-73 | takes a claimable row that no claimable row preceded in ready time, sets holder and tick, counts the attempt; None only if nothing is claimable |
| SyncLog.SyncLogTable.FencedUpdate | packages/sync-core/src/sync-log.service.ts:26-38 | the write lands exactly when the row is RUNNING and claimed by this worker id; otherwise the table is unchanged and the lease is reported lost |
| SyncLog.SyncLogTable.SweepStaleClaims | apps/sync-worker/src/watchdog.ts:43-79 | both bulk updates, and a count that equals the rows they were meant for |
| RunErrors.AdvanceCursorPastBadPage | apps/sync-worker/src/skip-bad-page.ts:60-117 | skips exactly when the cursor stands on a page whose successor is below the catalogue cap, through the fence, else nothing changes |
| RunErrors.HandleRunError | apps/sync-worker/src/run-error.ts:27-71 | one fenced write chosen by error class, the copy's attempt count and the page |
| RunErrors.ErrorStrandsIffCopyLags | apps/sync-worker/src/run-error.ts:37-70 | a routed error leaves the row terminal or claimable later, except exactly when a retry is routed from a copy that lags behind a row out of attempts |
| RunFailures.RoutedErrorOutcome | apps/sync-worker/src/run-error.ts:27-71 | every code, attempt and page: AUTH_FAILED and ACCESS_DENIED fail the row at once; below attempt 5 it waits 30, 60, 120 or 240 seconds; at attempt 5 a products run on page 0..98 stopped by UNREACHABLE goes on with its next page, anything else fails |
| RunFailures.FailedIff | apps/sync-worker/src/run-error.ts:37-70 | in every run whose errors are routed this way a row is FAILED iff some step did one of: an incurable error of its holder, another error at attempt 5 that no page skip recovers, or a sweep that found five claims burnt on a waiting or silent row |
| RunFailures.IncurableErrorsFail | apps/sync-worker/src/run-error.ts:18-21 | from the step on that routes AUTH_FAILED or ACCESS_DENIED of its holder a row is FAILED for good |
| RunFailures.OtherwiseNeverFailed | apps/sync-worker/src/run-error.ts:37-70 | a row never hit by those two codes, never routed from a copy at attempt 5 and claimed fewer than five times since each reset is never FAILED |
| RunFailures.BackoffDoubles | packages/sync-core/src/sync-log.service.ts:470-493 | each further attempt waits twice as long, up to 30 minutes |
| RunFailures.BackoffTable | packages/sync-core/src/sync-log.service.ts:470-493 | the waiting times of the attempts that are ever retried |
| LeaseBudget.LaggingCopyStrands | apps/sync-worker/src/run-error.ts:60-70 | a concrete run that gets there: worker 7 re-claims its reaped row four times, then the error of its first task, still at attempt 1, leaves the row unclaimable |
| LeaseRuns.ReachableTable | packages/sync-core/src/sync-log.service.ts:112-162 | in every reachable state: one active row per store and type, waiting rows without holder, running rows with one, attempts in 0..5, no PENDING or RUNNING ready time in the future |
| LeaseRuns.TerminalRowsFrozen | packages/sync-core/src/sync-log.service.ts:56-83 | COMPLETED and FAILED rows never change again in any run |
| LeaseRuns.HolderIsLatestClaimer | packages/sync-core/src/sync-log.service.ts:26-38 | the worker that passes the fence is the one that history names: latest claim, no lease-ending step since |
| LeaseRuns.FencedWriteNeedsTheLease | packages/sync-core/src/sync-log.service.ts:415-579 | a fenced write takes effect iff its worker made the latest claim and nothing ended that lease; other rows are never touched |
| LeaseRuns.StaleTaskPassesIffSameWorkerReclaimed | packages/sync-core/src/sync-log.service.ts:26-38 | a task that lost its claim still writes exactly when its own worker re-claimed the row later |
| LeaseRuns.StaleTaskCanWrite | packages/sync-core/src/sync-log.service.ts:26-38 | a concrete run in which that happens |
| LeaseRuns.SweepUpdatesCommute | apps/sync-worker/src/watchdog.ts:43-79 | the two bulk updates give the same table in either order |
| LeaseRuns.SweepLeavesNothingStuck | apps/sync-worker/src/watchdog.ts:43-79 | after a sweep of any reachable table no stale running row and no forever-unclaimable waiting row is left, and a second sweep matches nothing |
| LeaseRuns.WaitsUntouched | packages/sync-core/src/claim.ts:36-58 | a claimable row that is not claimed stays exactly as it is and stays claimable |
| LeaseRuns.BackoffKeepsKeyLate | packages/sync-core/src/sync-log.service.ts:486-509 | a row sent to backoff keeps a later ready time until a page skip clears it |
| LeaseRuns.ClaimTakesEarliest | packages/sync-core/src/claim.ts:36-58 | every claim in every run takes a minimal COALESCE key among claimable rows |
| LeaseRuns.NoOvertaking | packages/sync-core/src/claim.ts:36-58 | once a row is claimable, a row sent to backoff afterwards is not claimed first unless a page skip cleared its backoff |
| LeaseBudget.AttemptsCountClaims | packages/sync-core/src/claim.ts:12-73 | the attempt count is the number of claims since the last reset, hence at most 5 |
| LeaseBudget.StepSpendsBudget | apps/sync-worker/src/skip-bad-page.ts:87-116 | the measure (page, attempts) drops with every claim and only a graceful release refunds it |
| LeaseBudget.ClaimsAreBounded | apps/sync-worker/src/skip-bad-page.ts:87-116 | a row is claimed at most 500 times plus 5 per graceful release |
| LeaseBudget.SkippedPagesAscend | packages/sync-core/src/sync-log.service.ts:539-579 | skipped pages strictly increase, one entry per skip, never more than 99 |
| RowHistory.RowTellsItsHistory | packages/sync-core/src/sync-log.service.ts:415-579 | in every run the tick is the time of the last claim, tick or heartbeat of the row, the completion time that of the step that ended it, and the error the last one reported, kept through waiting, release and new claims until completion, a page skip or another error |
| RowHistory.SilentWorkersLoseTheRow | apps/sync-worker/src/watchdog.ts:43-79 | a sweep takes a running row from its worker iff more than 90 seconds passed since its last claim, tick or heartbeat, and otherwise leaves the row as it is |
| RowHistory.RowsEndWell | packages/sync-core/src/sync-log.service.ts:56-83 | in every run exactly the COMPLETED and FAILED rows carry an end time; a completed one has no error and its progress is its record count; a failed or backed-off one names its error |
| RowHistory.AcquiredIffAllEnded | packages/sync-core/src/sync-log.service.ts:112-162 | a new row is inserted, waiting and empty, iff every earlier row of its store and type is COMPLETED or FAILED |
| HandOff.FinishIsUnique | apps/sync-worker/src/loop.ts:24-61 | an uninterrupted run ends in one chunk with one count |
| HandOff.RunSyncToCompletion | apps/sync-worker/src/loop.ts:24-61 | dispatches the chunks of the uninterrupted run in order; completes with its count, or releases at its cursor with attempts reset, or reports a lost lease without a write |
| HandOff.LostClaimsRepeatOneChunkEach | apps/sync-worker/src/loop.ts:24-61 | any schedule with errors, crashes, sweeps and hand-offs but no self-reclaim: only chunks of the uninterrupted run, each chunk behind the cursor dispatched, at most one repeated per claim lost in mid-chunk; the run completes at most once, then its last chunk was dispatched too and the count is the uninterrupted one |
| HandOff.GracefulHandOffIsInvisible | packages/sync-core/src/sync-log.service.ts:415-468 | split over graceful releases and re-claims by any workers, a run dispatches the uninterrupted chunks once each and in order, with the same final count |
| HandOff.SelfReclaimRewinds | packages/sync-core/src/sync-log.service.ts:26-38 | a concrete schedule in which a worker's older task rewinds the cursor: the excluded case is real |
| HandOffRuns.ScheduleIsALeaseRun | apps/sync-worker/src/loop.ts:24-61 | refinement: what any schedule of tasks, chunks, errors and crashes does to the table is a run of the lease protocol, one fenced write of the task's worker per commit, release or error, and none for a dispatch or a crash |
| HandOffRuns.SchedulesKeepTheTable | packages/sync-core/src/sync-log.service.ts:26-38 | so no schedule breaks slot exclusivity, holders, attempt budget or ready times |
| Stock.StockTable.RecomputeProductsTotalStock | packages/order-sync/src/stock.ts:76-94 | each given product with variants gets the sum of its variants, whatever the order of the loop |
| Stock.DecrementsFloorOnce | packages/order-sync/src/stock.ts:36-52 | any list of decrements leaves max(q - sum, 0) for every variant |
| Stock.IncrementsAddUp | packages/order-sync/src/stock.ts:56-70 | any list of increments adds up per variant |
| Stock.UndoLeavesMaximum | packages/order-sync/src/intake-order.ts:103-166 | undoing a ghost's own lines leaves max(q, sum) |
| Stock.SplitLeavesUnsplitStock | packages/order-sync/src/intake-order.ts:103-166 | children with the same units then leave exactly the unsplit stock, also when the floor was hit |
| Stock.RecomputeRestoresTotals | packages/order-sync/src/stock.ts:76-94 | recomputing the touched products makes every total the sum of its variants again |
| Stock.LookupIgnoresStock | packages/order-sync/src/upsert-order.ts:532-560 | stock movements never change what a barcode resolves to |
| OrderLines.LookupIsUnambiguous | packages/order-sync/src/upsert-order.ts:531-560 | the OR lookup by line id or id-less variant key matches at most one item |
| OrderLines.DeliveriesStayDeduped | packages/order-sync/src/upsert-order.ts:531-652 | any deliveries keep line ids distinct and id-less items alone with their key |
| OrderLines.EachIdentifiedLineStoredOnce | packages/order-sync/src/upsert-order.ts:531-652 | a line id is stored exactly once iff it was ever delivered; every delivered line is stored; the commission estimate equals the commission |
| OrderLines.RedeliveryInsertsNothing | packages/order-sync/src/upsert-order.ts:569-597 | re-delivering stored lines inserts nothing and moves no stock |
| OrderLines.DeliveryCoversItsLines | packages/order-sync/src/upsert-order.ts:531-652 | after a delivery each of its lines is stored |
| OrderLines.IdlessLineStoredIffKeyIsNew | packages/order-sync/src/upsert-order.ts:543-560 | a line without an id is inserted exactly when no item has its variant key |
| OrderLines.UnresolvedIdlessLinesShareAnItem | packages/order-sync/src/upsert-order.ts:543-560 | so of two different lines without id whose barcodes resolve to nothing, only one is stored |
| OrderLines.EveryRunStoresTheSame | packages/order-sync/src/upsert-order.ts:550-600 | the lookup has no ordering: whichever matching item it takes, time after time, the stored ids, variants and quantities and the inserts are the same, and every estimate stays at its commission |
| OrderIntake.OrderStore.UpsertOrderWithSnapshot | packages/order-sync/src/upsert-order.ts:331-690 | stale events change nothing; otherwise order, items, stock and totals are those of the specified upsert |
| OrderIntake.OrderStore.StoreLines | packages/order-sync/src/upsert-order.ts:532-690 | the line loop: deduped items, one decrement per first insert that resolves, and the products it touched |
| OrderIntake.OrderStore.IntakeOrder | packages/order-sync/src/intake-order.ts:73-261 | all seven routes and their outcomes: split reversal, cancelled, calculable, past day, already stored, buffered again, buffered |
| OrderIntake.OrderStore.MoveLines | packages/order-sync/src/intake-order.ts:272-288 | every resolved line moves stock once, down at intake, up for a buffered ghost |
| OrderIntake.OrderStore.ReAddItems | packages/order-sync/src/intake-order.ts:103-166 | a stored ghost's items are re-added to their variants |
| OrderIntake.OrderStore.PromoteBuffered | apps/sync-worker/src/handlers/buffer-promote.ts:121-125 | order write and buffer delete in one step |
| OrderRuns.WatermarkAndWinner | packages/order-sync/src/upsert-order.ts:331-350 | for every sequence of upserts the watermark is the largest date seen and the status that of the last event not older than it |
| OrderRuns.StatusOfFreshestEvent | packages/order-sync/src/upsert-order.ts:458-490 | with all events dated, the last-delivered event of the largest date wins |
| OrderRuns.EveryDeliveryOrderAgrees | packages/order-sync/src/upsert-order.ts:331-350 | with distinct dates every permutation ends with the same status and watermark |
| OrderRuns.DeliveryOrderIrrelevantIff | packages/order-sync/src/upsert-order.ts:331-350 | for any non-empty collection of events every delivery order ends with one status iff all events that are undated or of the largest date share their status; the watermark never depends on the order |
| OrderRuns.UndatedEventBreaksConfluence | packages/order-sync/src/upsert-order.ts:486-489 | two events for which that condition fails, with the two outcomes |
| OrderRuns.ShopRunsAreOrderRuns | packages/order-sync/src/upsert-order.ts:331-690 | whatever stock they move, upserts against the whole shop act on a package's order row as these runs do |
| BufferRuns.BufferHoldsFreshest | packages/order-sync/src/intake-order.ts:308-354 | any parking deliveries of a package: the buffer holds the first delivered among the freshest; undated ones never replace it, a dated one replaces an undated one; the row keeps its first business day |
| BufferRuns.RefreshedIffReplaced | packages/order-sync/src/intake-order.ts:326-353 | a delivery is answered as refreshed iff the snapshot was replaced, iff it is fresher than all before |
| BufferRuns.OnlyPendingIsRefreshed | packages/order-sync/src/intake-order.ts:315-324 | a row that is being promoted or has failed is never refreshed |
| BufferRuns.PromotionWritesFreshest | apps/sync-worker/src/handlers/buffer-promote.ts:95-136 | promotion of such a package writes status and watermark of that freshest event |
| BufferRuns.FreshestWriteDecides | packages/order-sync/src/upsert-order.ts:331-350 | any life of a package, costed or not, parked, promoted, late or cancelled: an order row exists iff something was written, its status and date are the freshest write's, its business day the first one's |
| BufferRuns.FirstWriteSetsFlags | packages/order-sync/src/intake-order.ts:196-217 | the exclusion and promotion flags are those of the first write for good: excluded iff it was an uncosted delivery of an earlier day or a promotion told so |
| BufferRuns.AnswerByStage | packages/order-sync/src/intake-order.ts:168-261 | the answer to every live delivery, told by its status, cost and day and by where the package stands |
| BufferRuns.RemovalAnswers | packages/order-sync/src/intake-order.ts:125-166 | a removal names what it deleted and leaves neither row |
| BufferRuns.ExclusionNeverMovesStock | packages/order-sync/src/upsert-order.ts:640-690 | whether a profit is excluded changes no stock movement |
| OrderRuns.IntakeKeepsTotals | packages/order-sync/src/intake-order.ts:73-261 | every route leaves each product's total equal to the sum of its variants |
| OrderRuns.PromotionKeepsTotals | apps/sync-worker/src/handlers/buffer-promote.ts:121-125 | so does promotion |
| OrderRuns.SoldExactlyOnceIff | packages/order-sync/src/intake-order.ts:191-261 | any life of a package, deliveries and promotions on any routes: the stock is that of its sales, and with units to sell it is sold exactly once iff it was either parked on its business day or first written costed on that day, not both |
| OrderRuns.ParkedPackageSoldOnceIff | packages/order-sync/src/intake-order.ts:210-261 | from a package parked on its day, every later life subtracts more exactly when its order row is first written by a costed live delivery of that day |
| OrderRuns.SoldExactlyOnce | packages/order-sync/src/intake-order.ts:210-261 | the intended life, parked today, delivered any number of times without cost, promoted and delivered again: each resolved line subtracted once, and the package ends as an order |
| OrderSplits.ReversalUndoesSaleIff | packages/order-sync/src/intake-order.ts:77-152 | for any life of a ghost and a removal on any day, what is re-added equals what was sold exactly under a condition on its events, the date on the row and its lines: never seen; parked, and parked on its day iff removed on it; an order row of the day from exactly one sale, with no line deduped if that was the buffer's; an order row of another day that never sold |
| OrderSplits.OneDayReversalUndoesSaleIff | packages/order-sync/src/intake-order.ts:95-124 | for a package with one business date that condition needs no look at the row |
| OrderSplits.SameSaleIffNothingDeduped | packages/order-sync/src/intake-order.ts:272-290 | the buffer's sale and the order row's inserts move the same units exactly when every line that moves stock is stored as an item of its own |
| OrderSplits.StockThroughSplit | packages/order-sync/src/intake-order.ts:73-166 | the shelf after any feed of any packages, on any days and routes, with one removal in it: the sales before, the re-add by stage and date, the sales after, in which the ghost's id counts as new |
| OrderSplits.SplitNetsOutIff | packages/order-sync/src/intake-order.ts:77-83 | with a sale that the removal undoes and children that re-carry its units, before or after it, a variant ends at its unsplit stock exactly when no child sold any of it early or the shelf held the ghost's units and the early ones together |
| OrderSplits.SplitNetsOut | packages/order-sync/src/intake-order.ts:77-83 | the meant order, ghost, removal, children, whatever life the ghost lived: every variant ends at its unsplit stock, floor included, and stands at the larger of old stock and units in between |
| OrderSplits.EverydaySplitNetsOut | packages/order-sync/src/intake-order.ts:73-166 | one delivery today, removed today, and one child with the same lines on the same route leave the stock of the delivery |
| OrderSplits.ChildrenFirstNetsOutIff | packages/order-sync/src/intake-order.ts:77-83 | with all children before the removal, a variant ends at its unsplit stock exactly when it carries none or the shelf held its units twice |
| OrderSplits.CancelledGhostIsCredited | packages/order-sync/src/intake-order.ts:95-102 | a package first seen as cancelled sells nothing, and its removal the same day adds its units |
| OrderSplits.MidnightGhostStaysSold | packages/order-sync/src/intake-order.ts:121-124 | a package sold on its day and removed on another stays sold |
| OrderSplits.EverCoexistedIff | packages/order-sync/src/intake-order.ts:84-93 | over any life, order row and buffer row existed side by side at some point exactly when a live delivery arrived while the package was parked and was costed or past its day |
| OrderSplits.CostedWhileParkedSellsTwice | packages/order-sync/src/intake-order.ts:191-194 | the smallest life with both sales: its units are subtracted twice, the two rows coexist, and a removal re-adds only one of the two |
| ProfitFormula.ComputeProfit | packages/profit/src/profit-formula.ts:78-155 | one pass over any fee list computes the signed totals, the display buckets, clamped net VAT, net profit and both margins |
| FeeAmounts.ServiceFeeIsCharged | packages/profit/src/estimate-on-order-create.ts:118-177 | after any run, an estimate of a non-exempt order leaves the platform-service row at the net of the right definition within half a cent: the standard one without the same-day label, whatever the shipping; with it the fast one until the parcel is known to have left late |
| FeeAmounts.ExemptOrdersPayNoServiceFee | packages/profit/src/estimate-on-order-create.ts:118-131 | an estimate of a micro export or of digital goods alone leaves the service-fee row as it is |
| FeeAmounts.LateShipmentNeverLowersTheFee | packages/profit/src/estimate-on-order-create.ts:127-132 | with the fast fee not above the standard one, learning of a late shipment never lowers the fee and changes no other row |
| FeeAmounts.OtherChargesAreCharged | packages/profit/src/estimate-on-order-create.ts:194-335 | after any run, the amounts of withholding, shipping and international rows that an estimate writes, with their bases and rates |
| FeeAmounts.TierIsFirstMatch | packages/profit/src/overseas-return-operation.ts:52-68 | the tier taken is the newest whose band holds the unit price, bounds included; none means failure |
| LineFigures.WholeLineFee | packages/profit/src/estimate-return-on-claim.ts:198-221 | a line returned whole from abroad pays its tier's rate on its sale less its effective commission, nothing when that is a loss, and fails without a tier |
| LineFigures.OverseasRowIff | packages/profit/src/estimate-return-on-claim.ts:221-251 | the overseas row stands at the rounded fee, and exists after the call iff that is above zero |
| LineFigures.LegsOfOneLine | packages/profit/src/estimate-return-on-claim.ts:262-284 | n units of a line take back their share of its sale and commission and their cost, each at its own VAT rate |
| LineFigures.LineLowersProfit | packages/profit/src/recompute-settled-profit.ts:123-136 | with net VAT counted whole, one more line lowers estimate and settlement by its net cost and net effective commission; settlement takes the settled commission, else the estimated, else none |
| LineFigures.NoFiguresUntilCosted | packages/profit/src/recompute-settled-profit.ts:87-113 | one line without amount or VAT rate of its cost, or a missing sale total, keeps estimate and settlement from storing, and the skip reason is the first that applies |
| LineFigures.FiguresOnceCosted | packages/profit/src/recompute-settled-profit.ts:87-113 | otherwise both store, unless excluded |
| SettledRows.InvoicedChargeMoves | packages/profit/src/recompute-settled-profit.ts:143-169 | an invoiced or confirmed charge moves the unrounded settled profit by exactly minus its net amount (a credit plus) while the clamp is inactive, and by the clamped form otherwise |
| SettledRows.InvoicedReturnMoves | packages/profit/src/recompute-settled-profit.ts:188-221 | an invoiced return row moves its own term of the settled profit by what it does to the resolved leg |
| SettledRows.InvoicedLegHidesEstimates | packages/profit/src/fold-return-legs.ts:84-125 | once a leg is invoiced, sheets that differ only in estimates of it settle alike |
| SettledRows.OtherRowsNeverSettle | packages/profit/src/recompute-settled-profit.ts:149-152 | unconfirmed estimates and hand-entered rows, anywhere in the table, change no settled figure |
| SettledRows.EstimatedChargeMoves | packages/profit/src/estimate-on-order-create.ts:104-116 | the estimate counts every estimated charge, and none of another source |
| SettledRows.StoredFiguresMean | packages/profit/src/recompute-settled-profit.ts:239-249 | the four stored figures: profit and net VAT to cents; the margin times the sale and the markup times the cost give the profit back up to the rounding |
| SettledRows.SettleStores | packages/profit/src/recompute-settled-profit.ts:223-252 | settlement stores exactly for a computable, not excluded order, at the net-VAT policy of the order's own snapshot |
| ReturnLegs.ResolveLeg | packages/profit/src/fold-return-legs.ts:40-63 | a leg is the sum of its invoiced rows if there is one, else of its estimates |
| ReturnLegs.ActualMakesEstimatesIrrelevant | packages/profit/src/fold-return-legs.ts:49-53 | once a leg has an invoiced row, rows that differ only in its estimates resolve alike |
| ReturnLegs.ListedLeg | packages/profit/src/fold-return-legs.ts:71-82 | the lists' leg exceeds the engine's by the hand-entered rows, unless an invoiced row settles it |
| ProfitSheet.FoldReturnLegs | packages/profit/src/fold-return-legs.ts:84-125 | the five resolved legs come off sale, cost, commission and withholding, return shipping joins the fees, the flag is kept |
| Breakdown.BuildProfitBreakdown | packages/profit/src/build-profit-breakdown.ts:108-235 | the loops compute the displayed terms, netted by the return legs, and the group totals |
| Breakdown.SumFees | packages/profit/src/build-profit-breakdown.ts:127-139 | the displayed sum of one fee type, signed by direction |
| Breakdown.StoppageAgrees | packages/profit/src/build-profit-breakdown.ts:149-150 | with one debit withholding row, the view's sum and the engine's first row agree |
| Breakdown.ViewCloses | packages/profit/src/build-profit-breakdown.ts:108-235 | displayed sale = cost + marketplace fees + taxes + net profit exactly, and the VAT lines sum to net VAT exactly when the clamp is inactive |
| BreakdownLines.ForwardRowMovesItsLine | packages/profit/src/build-profit-breakdown.ts:126-146 | one more charge moves the displayed line of its type by its signed gross and VAT, with the group totals, and no other line |
| BreakdownLines.StoppageRowMovesItsLine | packages/profit/src/build-profit-breakdown.ts:147-202 | one more withholding row moves the withholding line, never below zero, and the taxes, and no other line |
| BreakdownLines.ReturnRowMovesItsLine | packages/profit/src/build-profit-breakdown.ts:160-191 | one more return row, of any source, moves the line its leg is netted against by what it does to the resolved leg, and no other line |
| BreakdownLines.ItemMovesItsLines | packages/profit/src/build-profit-breakdown.ts:114-123 | one more item moves cost and commission line and their groups, by units at cost and by effective commission |
| BreakdownLines.EmptyView | packages/profit/src/build-profit-breakdown.ts:108-236 | with nothing stored every other line is empty |
| BreakdownLines.BucketsAreShown | packages/profit/src/profit-formula.ts:88-98 | with debit charges the engine's shipping and platform-service buckets are the displayed lines |
| Breakdown.ListsShowTheSameSaleIff | packages/profit/src/fold-return-legs.ts:71-82 | for any rows, lists and breakdown show one net sale exactly when an invoiced refund exists or hand-entered refunds cancel out |
| Breakdown.HandEnteredRefundSetsListsApart | packages/profit/src/fold-return-legs.ts:71-82 | the row that would set them apart |
| Breakdown.RoundedViewClosesWithinCents | packages/profit/src/build-profit-breakdown.ts:199-235 | after rounding each term the view closes within half a cent per term |
| Breakdown.StoredViewClosesWithinCents | packages/profit/src/build-profit-breakdown.ts:199-235 | and within three cents when it shows the stored, rounded figures |
| Breakdown.RoundedVatClosesWithinCents | packages/profit/src/build-profit-breakdown.ts:199-235 | with the clamp inactive the rounded VAT lines add up to the rounded net VAT within half a cent per term, and the two shipping components to the shipping line |
| UnitPricing.ProfitIsAffine | packages/profit/src/unit-pricing.ts:41-66 | for any fixed fees net profit is affine in price with the sampled slope and intercept |
| UnitPricing.UnroundedPriceIsTheInverse | packages/profit/src/unit-pricing.ts:89-136 | the unrounded solution attains a profit, margin or markup target exactly, and is the only price that does |
| UnitPricing.RoundedPriceIsClose | packages/profit/src/unit-pricing.ts:89-136 | the returned price misses a profit target by at most slope times half a cent |
| UnitPricing.RejectedAfterRoundingIsUnsellable | packages/profit/src/unit-pricing.ts:89-136 | a target rejected after solving is met by no price of half a cent or more |
| UnitPricing.RejectedMarginReachableIff | packages/profit/src/unit-pricing.ts:89-136 | a margin at or above the slope is always rejected; when that is wrong is told by the sign of the intercept |
| UnitPricing.ReasonsAreTrue | packages/profit/src/unit-pricing.ts:95-135 | not price-sensitive iff no higher price ever earns more; no cost iff raising pays but the markup is undefined at every price |
| UnitPricing.QuoteIsRealisedIff | packages/profit/src/unit-pricing.ts:54-59 | at any price the unclamped quote equals the realised profit exactly when the VAT share of price less commission covers the VAT of cost and fixed fees; the realised profit never exceeds the quote |
| UnitPricing.SolutionIsRealisedIff | packages/profit/src/unit-pricing.ts:54-59 | at the solution of a profit, margin or markup target that condition is one on rates, costs and the target alone |
| UnitPricing.SolvedQuoteIsRealisedIff | packages/profit/src/unit-pricing.ts:89-136 | a solvable target is quoted at the unrounded solution rounded to cents, and the quote is realised exactly when the VAT condition holds there |
| UnitPricing.NoLossNoCredit | packages/profit/src/unit-pricing.ts:41-66 | with one VAT rate throughout, a price without a loss never has negative net VAT |
| UnitPricing.RemarkHoldsAtOneRate | packages/profit/src/unit-pricing.ts:57-58 | so there the remark holds: at a positive solution of a non-negative target quote and realised profit agree |
| UnitPricing.SolvedPriceCanHaveNegativeNetVat | packages/profit/src/unit-pricing.ts:57-58 | a solved positive price with negative net VAT exists, and realises less than its target |
| FeeTable.UpsertKeepsOneEach | packages/profit/src/estimate-return-on-claim.ts:90-122 | find-then-update-or-create never makes a second ESTIMATE row of a type |
| FeeTable.UpsertSets | packages/profit/src/estimate-return-on-claim.ts:90-122 | the type's row afterwards is the old row revised, or the created one |
| FeeTable.UpsertLeavesOthers | packages/profit/src/estimate-return-on-claim.ts:90-122 | rows of other types are found unchanged |
| FeeTable.UpsertIsIdempotent | packages/profit/src/estimate-return-on-claim.ts:90-122 | writing what a row already carries changes nothing |
| FeeTable.RewritesKeepTheRest | packages/profit/src/estimate-return-on-claim.ts:90-122 | after any number of writes of a type its row has the last amount, the last rate and direction that were named, and its source and confirmation untouched |
| FeeTable.FirstWriteMakesAnEstimate | packages/profit/src/estimate-on-order-create.ts:166-175 | the first write makes an unconfirmed ESTIMATE row, without VAT unless a rate is named |
| FeeTable.DeleteKeepsOneEach | packages/profit/src/estimate-return-on-claim.ts:244-246 | deleting the found row leaves none of its type |
| ProfitSheet.OrderSheet.UpsertFee | packages/profit/src/estimate-return-on-claim.ts:90-122 | updates amount, rate if given and direction if set of the first ESTIMATE row of the type, or appends an unconfirmed one |
| ProfitSheet.OrderSheet.WriteFees | packages/profit/src/estimate-on-order-create.ts:109-335 | service fee, withholding, shipping and micro-export fee in order; fails exactly when a needed definition is missing |
| ProfitSheet.OrderSheet.ApplyEstimate | packages/profit/src/estimate-on-order-create.ts:50-468 | fees, settings snapshot and figures of the specified estimate, or, on a throw, the sheet as it was |
| ProfitSheet.EstimateOf | packages/profit/src/estimate-on-order-create.ts:361-467 | loops over lines and fees give the estimate's four figures |
| ProfitSheet.SumLines | packages/profit/src/estimate-on-order-create.ts:361-375 | cost and commission with their VAT, per line at full precision, for the estimate and for settlement |
| ProfitSheet.OrderSheet.RecomputeSettled | packages/profit/src/recompute-settled-profit.ts:65-253 | the settled figures, or the skip reason and no change; estimate columns are never touched |
| ProfitSheet.OrderSheet.EstimateReturnOnClaim | packages/profit/src/estimate-return-on-claim.ts:137-346 | return legs or the overseas fee, then a fresh estimate, all in one transaction |
| ProfitSheet.TallyClaim | packages/profit/src/estimate-return-on-claim.ts:170-179 | accepted units counted per line in order of first appearance |
| ProfitSheet.SumLineLegs | packages/profit/src/estimate-return-on-claim.ts:258-284 | refund, gross commission and cost of the accepted units, last contributing line's VAT rate |
| ProfitSheet.SumOverseas | packages/profit/src/estimate-return-on-claim.ts:199-221 | the overseas fee over all lines, or None when a unit price has no tier |
| FeeRuns.EstimateIsIdempotent | packages/profit/src/estimate-on-order-create.ts:50-468 | a repeated estimate on the same inputs changes no row, no setting and no figure, even if the live settings changed |
| FeeRuns.ReturnIsIdempotent | packages/profit/src/estimate-return-on-claim.ts:137-346 | so does a repeated return estimate |
| FeeRuns.FeeTableRuns | packages/profit/src/estimate-on-order-create.ts:159-335 | any interleaving of estimates, returns, settlements, confirmations and invoices keeps one ESTIMATE row per type, the settings snapshot and the first withholding amount |
| FeeRuns.LaterSettingsNeverMatter | packages/utils/src/profit-settings.ts:38-67 | after the first estimate, runs that differ only in live settings end in the same sheet |
| FeeRuns.RegimesNeverMix | packages/profit/src/estimate-return-on-claim.ts:190-256 | in any run a micro export never carries a platform-service, withholding or return-leg estimate, a domestic order never an international or overseas one |
| FeeRuns.FirstEstimateSnapshots | packages/profit/src/estimate-on-order-create.ts:78-102 | what the first estimate snapshots, wrong-typed settings and micro exports included |
| FeeRuns.RunsAddNoManual | packages/profit/src/build-profit-breakdown.ts:163-166 | no run of estimates, returns, settlements and confirmations leaves a hand-entered row |
| FeeRuns.EstimatesStandTheRightWay | packages/profit/src/estimate-return-on-claim.ts:62-68 | in every run exactly the estimates of refunded commission, returned cost and refunded withholding are credits |
| FeeRuns.LegsAreTurnedRight | packages/profit/src/estimate-return-on-claim.ts:90-122 | a rewritten leg stands the right way even if its row did not before |
| FeeAgreement.CommissionTracksItsEstimate | packages/order-sync/src/upsert-order.ts:575-594 | through any re-deliveries and settlements the estimated commission stays the commission; settlement reads the same one iff none or an equal one was settled |
| FeeAgreement.SettlementFreezesTheCommission | packages/order-sync/src/upsert-order.ts:577-595 | through any deliveries and settlements the commission is the one last delivered as known before settlement, else the first; later deliveries change nothing |
| FeeAgreement.EstimateAndSettlementAgree | packages/profit/src/recompute-settled-profit.ts:123-250 | all estimates confirmed, nothing invoiced, same commissions: settlement stores the estimate's four figures |
| FeeAgreement.EstimateClosesTheBreakdown | apps/api/src/services/order.service.ts:372-420 | over the rows the order page selects, forward estimates and return rows of every source, the stored estimate closes the seller's breakdown within three cents |
| FeeAgreement.ListsAgreeInEveryRun | packages/profit/src/fold-return-legs.ts:65-82 | after any run without hand-entered rows the lists show the net sale of the order page |
| FullReturn.EachUnitReturnsItsShare | packages/profit/src/estimate-return-on-claim.ts:258-284 | a leg is the sum of the accepted units' own shares of their lines |
| FullReturn.ClaimOrderIsIrrelevant | packages/profit/src/estimate-return-on-claim.ts:153-179 | claim items may be read in any order: the amounts are the same |
| FullReturn.RateIgnoresOrderIff | packages/profit/src/estimate-return-on-claim.ts:258-284 | the VAT rate of a leg is the same for every reading order of the claim exactly when all accepted lines that add to the leg share one rate |
| FullReturn.LastLineSetsTheRate | packages/profit/src/estimate-return-on-claim.ts:258-284 | with two lines of different rates the one read last wins |
| FullReturn.EachUnitPaysItsFee | packages/profit/src/overseas-return-operation.ts:34-68 | the overseas fee is the sum of the accepted units' own fees in any reading order, and fails exactly when a unit price has no tier |
| FullReturn.FullClaimReturnsEverything | packages/profit/src/estimate-return-on-claim.ts:258-289 | a claim over every unit returns the order's whole sale, gross commission and cost |
| FullReturn.FullReturnResidue | packages/profit/src/estimate-return-on-claim.ts:277-289 | leg by leg, what a full return leaves: no cost, the sale the lines do not explain, and minus the commission refunded on discounts, so commission is neutral iff that is zero |
| FullReturn.FullReturnRefundsWithholding | packages/profit/src/estimate-return-on-claim.ts:291-312 | an order of one VAT rate that carries its withholding and is returned in full keeps none of it |
| FullReturn.FirstWithholding | packages/profit/src/estimate-on-order-create.ts:194-224 | the first estimate that owes a withholding leaves it on the sheet, at the rate on the net sale |
| FullReturn.GrossedRoundTrip | packages/profit/src/estimate-on-order-create.ts:142-150 | a fee grossed up from its definition splits back into the definition's net |
| CostSnapshot.ItemCost.CaptureCostSnapshot | packages/order-sync/src/upsert-order.ts:117-201 | write-once: captured exactly when uncaptured, linked, not excluded, costed and convertible; else nothing changes |
| CostSnapshot.ItemCost.CaptureByApi | apps/api/src/services/cost-snapshot.service.ts:72-178 | the API's copy: refuses a captured item, rounds each component, stores the weighted mean |
| CostSnapshot.ArchivedProfilesDoNotCount | packages/order-sync/src/upsert-order.ts:135-142 | archived profiles neither give anything to capture, nor add to it, nor stop it |
| CostSnapshot.EachActiveProfileCounts | packages/order-sync/src/upsert-order.ts:144-175 | active profiles convert iff each has an exchange rate, and then each gives one component |
| CostSnapshot.BlendedRateKeepsTheVat | packages/order-sync/src/upsert-order.ts:177-193 | before rounding, splitting VAT off the total at the blended rate gives the sum of the components' VAT |
| CostSnapshot.BlendedRateIsBetween | packages/order-sync/src/upsert-order.ts:177-193 | before rounding, the blended rate lies between the smallest and largest component rate |
| CostSnapshot.MeanRateExceedsBlendedRate | apps/api/src/services/cost-snapshot.service.ts:156-165 | before rounding, the weighted mean is never below the blended rate, and equal iff all costing components share one rate |
| StoredCost.ApiRoundsComponents | apps/api/src/services/cost-snapshot.service.ts:126-155 | both implementations accept the same profiles, and the API's components are intake's rounded to cents |
| StoredCost.StoredTotalsAreClose | packages/order-sync/src/upsert-order.ts:177-193 | the two stored totals differ by at most half a cent for each component and one more |
| StoredCost.IntakeRateIsNear | packages/order-sync/src/upsert-order.ts:177-193 | the rate intake stores is within 0.005 + 0.5/net of the blended rate, though the net is taken off the rounded total |
| StoredCost.IntakeKeepsTheNet | packages/order-sync/src/upsert-order.ts:177-193 | the stored total split at the stored rate gives the components' net up to the rounding of the rate |
| StoredCost.StoredRatesAreClose | apps/api/src/services/cost-snapshot.service.ts:156-165 | the two stored rates differ by at most the spread of the components' rates, 0.01 and 0.5/net |
| StoredCost.OneRateStoredAlikeIff | packages/order-sync/src/upsert-order.ts:177-193 | components of one rate: the API stores that rate, intake stores it iff the drift of the rounded total is rounded away |
| StoredCost.WholeCentsStoredAlikeIff | packages/order-sync/src/upsert-order.ts:111-193 | whole-cent components: same total, intake's rate never above the API's, snapshots equal iff one hundredth fits both sums, as at one rate it does |
| StoredCost.StoredRatesAlikeIff | apps/api/src/services/cost-snapshot.service.ts:126-165 | any components, rates and exchange rates: the stored rates are equal iff one hundredth fits both, read off the sums of gross, net and weighted gross without dividing |
| StoredCost.DifferentRatesStoredAlike | packages/order-sync/src/upsert-order.ts:177-193 | two profiles of different rates with equal snapshots |
| StoredCost.DifferentRatesStoredApart | apps/api/src/services/cost-snapshot.service.ts:156-165 | two profiles of different rates stored at 9.09 and at 10 |
| StoredCost.OneRateStoredApart | packages/order-sync/src/upsert-order.ts:177-193 | one converted profile stored at 19.99 and at 20 |
| RateLimit.RateLimiter.Handle | apps/api/src/middleware/rate-limit.middleware.ts:62-102 | an empty identity is unlimited; otherwise the verdict and store of the fixed window with eviction |
| RateLimit.StoreStaysUnderCap | apps/api/src/middleware/rate-limit.middleware.ts:92-99 | no run leaves the store above its key cap |
| RateLimit.RateBound | apps/api/src/middleware/rate-limit.middleware.ts:79-90 | a never-evicted key gets at most max per window and at most 2*max - 1 in any half-open interval of one window length |
| RateLimit.BoundIsReached | apps/api/src/middleware/rate-limit.middleware.ts:79-90 | for every limit a run reaches that bound |
| LimitWindows.NthIsAcceptedIff | apps/api/src/middleware/rate-limit.middleware.ts:79-92 | rejected requests count too: the n-th request of a window is accepted iff its own limit is at least n |
| LimitWindows.RetryAfterIsEnough | apps/api/src/middleware/rate-limit.middleware.ts:86-90 | the answer is at least a second; after it the window is over, a whole second earlier it was not |
| LimitWindows.KeysStandByAge | apps/api/src/middleware/rate-limit.middleware.ts:92-99 | in every run the keys stand in the order in which their buckets were first stored |
| LimitWindows.TheOldestMakesRoom | apps/api/src/middleware/rate-limit.middleware.ts:94-99 | a key is evicted iff a new one is stored into a full store and no stored key is older |
| ColumnCodec.ColumnLetter | apps/api/src/lib/xlsx-patch.ts:24-33 | the loop computes the bijective base-26 name |
| ColumnCodec.ColumnIndex | apps/api/src/lib/xlsx-patch.ts:35-39 | the loop computes the positional value |
| ColumnCodec.IndexRoundTrip | apps/api/src/lib/xlsx-patch.ts:24-39 | every index has an A-Z name that reads back as the index |
| ColumnCodec.NameRoundTrip | apps/api/src/lib/xlsx-patch.ts:24-39 | every A-Z string is the name of the index it reads as |
| ColumnCodec.LetterOrderIsIndexOrder | apps/api/src/lib/xlsx-patch.ts:24-39 | shorter first, then lexicographic, is index order, both ways |

## Left out

- HandOff.RunSyncToCompletion: the method is the loop between steps of other workers; their interference is in the `World` runs. Page skips of the tracked row are not moves of `World`, because a skip deliberately leaves the uninterrupted run.
- Stock.LookupIgnoresStock: of several variants that share a barcode the model takes the first; the code's lookup has no ordering.
- HandOff.LostClaimsRepeatOneChunkEach: excludes schedules in which a worker re-claims the row over its own older task; `HandOff.SelfReclaimRewinds` shows why.
- LeaseBudget.ClaimsAreBounded: takes a page skip as one step with its read of the cursor, and assumes a handler never ticks a lower page.
- OrderLines.EachIdentifiedLineStoredOnce: assumes a fixed barcode lookup and one barcode per platform line id.
- LeaseRuns.ClaimTakesEarliest: claims are atomic steps here. In the database two overlapping claims can pass each other: SKIP LOCKED hides a row another transaction has locked, so a claim may take a later row while the earlier one is being claimed.
- OrderRuns.SoldExactlyOnce: the intended route only; every other route is covered by `OrderRuns.SoldExactlyOnceIff`.
- OrderRuns.SoldExactlyOnceIff: lives of one package whose deliveries all carry the same lines; ghosts and their splits are in `OrderSplits`.
- OrderSplits.ReversalUndoesSaleIff: for lines that carry units; a package whose lines move no stock has nothing to sell or undo. Each package is always delivered with its own lines, and the barcode lookup is fixed.
- RateLimit.RateBound: for a key that is never evicted, under a clock that never runs backwards.
- UnitPricing.UnroundedPriceIsTheInverse: a margin target whose solution is price zero is excluded, since a margin at price zero is undefined.
- CostSnapshot.BlendedRateKeepsTheVat: before rounding; what the stored values keep is `StoredCost.IntakeKeepsTheNet`.
- CostSnapshot.BlendedRateIsBetween: before rounding; the stored rate can leave the interval by the bound of `StoredCost.IntakeRateIsNear`.
- CostSnapshot.MeanRateExceedsBlendedRate: before rounding; what is stored is compared in `StoredCost`.
- FeeAgreement.EstimateAndSettlementAgree: covers sheets without invoiced rows; with them the two are meant to differ.
- FullReturn.FullReturnResidue: a domestic order and a leg with a positive whole-cent total and nothing invoiced.
- FullReturn.FullReturnRefundsWithholding: for lines of one VAT rate; with several, the refund is computed at the rate of the line read last.
- Columns without a protocol role: claimedAt, errorMessage, progressTotal, stage, display names, fee-definition links, organization ids.
- The unfenced progress write `advance`, the list and read helpers, logging and realtime notifications.
- SQL as such: every transaction or single UPDATE is one atomic step; row locks and SKIP LOCKED appear only as the freedom to choose among equally early rows. Two order transactions in flight at once are not modelled.
- Marketplace HTTP, chunk handlers and shipping tariffs: parameters of the steps. Shipping estimates, the calculability check and the effective-commission fallback enter as values.
- Buffer attempts and backoff of the promotion handler; only its transaction is modelled.
- The deletion of estimate rows by other jobs, user overrides of fees, and period fees; hand-entered and overridden rows share the source MANUAL.
- A manual exchange rate that is missing throws in intake; it is treated like an unavailable rate, which leaves the same item.
- In the rate limiter the bucket object shared between the map and the request is modelled by writing the count back to the map.
- Time zones: a business date is an integer day given with each call. Decimal's 20-digit precision: arithmetic is exact.
- Catalogue writes, tariff import and export, spreadsheet parsing, the webhook lease, permissions, routes and user interface.
