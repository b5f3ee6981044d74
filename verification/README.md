# Verification of the index-minting ledgers

This project models the ledgers that follow a user's money from deposit to mint, and proves what they keep over
whole runs. Amounts are exact reals; the threshold under which an amount counts as nothing is a parameter. Results say
whether they hold for every threshold, only for a threshold of zero, or with a bound that grows with it.

| part | files | what it models |
|---|---|---|
| Collateral ledger | `CollateralSpec`, `CollateralPosition`, `CollateralManager`, `CollateralBooking`, `CollateralTheory`, `CollateralAnswers`, `CollateralDrift`, `CollateralCareful` | money moving unconfirmed, ready, preauthorized, spent; recorded per side, per lot and per spend |
| Index order queue | `IndexOrderSpec`, `IndexOrder`, `IndexOrderTheory`, `IndexOrderAnswers`, `UpdateLedger` | updates of one order: engaged first in first out, cancelled last in first out, with side flipping |
| Batch engine | `BatchLots`, `BatchFillSpec`, `BatchManagerSpec`, `BatchManager`, `BatchRuns`, `BatchFillTheory`, `BatchFillAnswers`, `BatchAnswers`, `BatchMessages`, `BatchFigures`, `BatchSafety`, `BatchShortage`, `BatchConservation`, `BatchLosses`, `BatchLossRun`, `BatchMints`, `BatchPrices`, `BatchRates`, `BatchReports`, `BatchVolley`, `BatchExamples`, `ManagerSteps`, `ManagerEvents` | lots from executions, allocated to index orders by their shares, carried from batch to batch |
| Order protocol | `OrderProtocol`, `OrderDesk`, `OrderManager`, `OrderBooks`, `OrderAnswers`, `OrderInStep`, `MintInvoice`, `InvoiceLots`, `OrderExamples` | one order in two ledgers, kept in step by messages, up to the invoice |
| Quote queues | `QuoteQueues` | quotes per client, handed out in order |

The classes have the fields and the loops of the program. Each method is proved to compute a function of the old
state; the properties are proved about those functions, one step at a time and then over every run. In the batch
engine a run is any interleaving of small steps (one execution, one order filled, one batch completed, any change the
rest of the solver makes to an order). `BatchRuns` proves that every handler is a sequence of such steps, and
`ManagerEvents` that a run of the manager's own events takes only the steps that the results allow, as long as no event
reaches a batch that is already cancelled. What each operation answers and publishes is characterized by its inputs and
outputs alone in `CollateralAnswers`, `IndexOrderAnswers`, `BatchFillAnswers`, `BatchAnswers`, `BatchMessages`,
`BatchFigures`, `OrderAnswers` and `InvoiceLots`.

## What the proofs found

- With any threshold above zero, allocation can run short although the shares of an asset add up to one: lots that are
  almost used up are handed out whole, and the difference is missing for the next order
  (`BatchShortage.ToleranceRunsShort`). No legal run ever runs short if and only if the threshold is zero
  (`BatchShortage.NeverShortExactly`). A single fill runs short if and only if the lots of some asset fall short of what
  it asks for by more than the threshold (`BatchShortage.ShortExactly`), and the first shortage of a run is at most the
  threshold times the number of steps (`BatchSafety.ShortageIsBounded`). Outside of legal runs there are shortages
  without a threshold too: after a late execution, in a batch that is completed but not cleaned up yet
  (`BatchShortage.LateExecutionRunsShort`). An execution of an asset without order value would be another such input,
  but what is sent to the exchange always has one (`BatchVolley.SentAssetsAreBooked`).
- A batch whose assets are all carried in and whose first fill fails is not completed but is removed by a later
  cleanup, and its carried lots are lost (`BatchLosses.FailedBatchIsLost`). A run of events that loses lots is in
  `BatchLossRun.LotsAreLost`: an order goes on, partly mintable, into a new batch with part of a lot carried over for it;
  another batch's completion publishes it, and it is minted before the new batch is sent. Lots are lost if and only if a
  batch that still holds some is cleaned up or sent again (`BatchLosses.NothingIsLostExactly`). The volley of such a
  batch stays in the total.
- An order that passes the fill threshold without passing the mint threshold becomes fully mintable without being put
  among the orders to mint (`BatchMints.MadeMintable`), and is then never published unless something else changes it
  (`BatchMints.NeverPublished`). No run forgets an order that way if and only if the mint threshold is at most the fill
  threshold (`BatchMints.NeverForgottenExactly`).
- A late execution is handed out while the order's collateral is carried over. What it costs comes off the engaged
  collateral, which is then below zero, and the next answer of the order manager replaces it: from then on the solver
  has more engaged than the order manager, by exactly what was spent (`OrderInStep.LateFillPartsLedgers`, and a run in
  `OrderExamples.LateFillLeavesStep`). Over all runs the two ledgers differ by exactly what `OrderInStep.Account` adds
  up, and agree if and only if that is nothing (`OrderInStep.LedgersAgreeExactly`).
- The fill rate is reported without the carried collateral, so a fill while some is carried over reports too much, and
  the rate reported next can be lower (`BatchReports.LateFillReportFalls`); `BatchReports.ReportsFallExactly` says when.
  The order's collateral also grows by what such an answer brings back, so its spent share can fall
  (`BatchRates.SpentShareFallsExactly`).
- New collateral to engage is the difference between what a batch needs and what was carried over
  (`src/solver/solvers/simple_solver.rs:1607`), and can be negative. For an update that counts as fully engaged, the
  order manager then changes the order's totals but not the update, and always reports that nothing remains. The
  ledgers stay in step exactly under the condition of `OrderInStep.RequestsStayInStepExactly`, and the order's total
  matches its queue exactly under that of `IndexOrderTheory.ReengagingFullyEngaged`.
- Only an update among the fully engaged ones can be completed, so an order that becomes mintable while part of it is
  still in the queue is minted without an invoice (`MintInvoice.MintedExactly`). With a threshold of zero no run gets an
  update there (`MintInvoice.NoToleranceNoInvoice`), unless an order comes on the opposite side that is larger than all
  that remains in the queue (`MintInvoice.OppositeOrderEngages`).
- Invoices balance over every run, late fills and unfitting engagements included, but for lots that were handed out by a
  fill that failed and for parts of a lot merged at another price (`MintInvoice.InvoiceBalances`). The second does not
  happen while the exchange reports a lot at one price (`MintInvoice.LotsAreNotMispriced`).
- The order manager removes a whole order when one of its updates is minted and none is left in the queue, also when
  another update is still among the fully engaged ones (`OrderManager.OtherMintKeepsMine`).
- A fill that stops for lack of lots leaves the lots allocated so far with the order but spends nothing for them. The
  ledgers are in step afterwards if and only if those lots cost nothing (`OrderInStep.FailedFillInStepExactly`); a run
  in which they cost ten is in `OrderExamples.ShortFillLeavesStep`.
- `book_records` treats "not enough funds" as success (`src/collateral/collateral_manager.rs:655-667`); over
  nonnegative runs that answer does not occur (`CollateralBooking.RunsAreSolvent`).
- Confirming a payment in two parts drops what its spends still held after the first part, so that the second part finds
  nothing in the lots and the balances drift from them without bound (`CollateralDrift.TwoPartsDrift`). Over any run the
  balances drift from the lots by exactly what was confirmed beyond what the lots held, up to the threshold once per
  request (`CollateralDrift.BoundedDrift`); payments confirmed once, for at most what was authorized, keep that within a
  linear multiple of the threshold (`CollateralCareful.CarefulRunsDrift`).
- Cancelling a quote that waits at the front of its client's queue puts the client in the notify queue twice and hands
  the next quote out twice; `QuoteQueues.StepHealthy` gives the exact condition.
- An order on the opposite side that outgrows an engaged order's queue is answered with the sum of the queue as removed
  collateral, while the order's remaining collateral, whatever it was, becomes nothing: the answer is the change if and
  only if the two were equal (`IndexOrderAnswers.OutgrownIsTheQueue`).
- Two engagements in a row are one engagement of the sum if and only if the first stops inside an update or exhausts the
  queue (`IndexOrderTheory.EngagingAddsUp`); when it ends within the threshold of an update's remainder, the difference
  is forgotten (`IndexOrderTheory.ToleranceBreaksAddingUp`).

## Model

| member | source | states |
|---|---|---|
| CollateralPosition.CollateralSide.OpenLot | src/collateral/collateral_position.rs:144-168 | the method opens a lot exactly when the sequence number is new, and leaves a replayed deposit without effect |
| CollateralPosition.CollateralSide.AddReady | src/collateral/collateral_position.rs:170-245 | the boundary scan and the two loops move the amount from unconfirmed to ready, whole lots first, as the specification says, also on failure |
| CollateralPosition.CollateralSide.PreauthPayment | src/collateral/collateral_position.rs:249-346 | the same for ready to preauthorized, with a spend recorded on each lot |
| CollateralPosition.CollateralSide.ConfirmPayment | src/collateral/collateral_position.rs:351-521 | the same for preauthorized to spent, through the spends of one payment, closing used-up lots by ID |
| CollateralPosition.CollateralPosition.PreauthPayment | src/collateral/collateral_position.rs:601-624 | funds are checked first; a refused payment changes nothing |
| CollateralPosition.CollateralPosition.ConfirmPayment | src/collateral/collateral_position.rs:626-650 | the same for confirming |
| CollateralTheory.ScanMeaning | src/collateral/collateral_position.rs:176-203 | the scan stops at the first lot whose running total covers the amount up to the tolerance, and says how much of that lot is needed |
| CollateralTheory.SideIsDeposits | src/collateral/collateral_position.rs:144-168 | after any run, failing calls and replayed deposits included, the open and closed lots are exactly the booked deposits, each sequence number once, and the four balances add up to them, for any tolerance |
| CollateralTheory.BalancesAreLots | src/collateral/collateral_position.rs:205-521 | after any run the side's balances and its lots carry the same total |
| CollateralTheory.SpendsAgreeWithLots | src/collateral/collateral_position.rs:309-334 | after any run of nonnegative requests each lot's spent amount is the sum of its spends' and its preauthorized amount covers theirs |
| CollateralTheory.ConfirmLeavesOthersAlone | src/collateral/collateral_position.rs:392-482 | confirming one payment leaves all spends of other payments, and every lot's total, unconfirmed and ready amounts as they were |
| CollateralTheory.DueIsRecorded | src/collateral/collateral_position.rs:449-482 | a lot that covers the amount due records exactly that amount in the payment's spends |
| CollateralAnswers.ReadyExactly | src/collateral/collateral_position.rs:170-249 | confirming deposits moves whole lots in turn and of the next lot what is then missing; it fails without a change if and only if that lot would go negative, and with the lots moved if and only if the side would |
| CollateralAnswers.PreauthExactly | src/collateral/collateral_position.rs:249-349 | the same for authorizing: every lot that gives up ready collateral gets one spend of the payment with just that amount, and the answer is approved, not enough funds, or a failure by an exact condition |
| CollateralAnswers.ConfirmNames | src/collateral/collateral_position.rs:415-523 | a confirmation answers, in the order of the lots, the deposit numbers of exactly the lots in which the payment's spends record more than the tolerance more as spent afterwards than before |
| CollateralAnswers.LastNumberIsLastPayer | src/solver/solver.rs:1149-1159 | the last number answered, which the solver mints under, is that of the last lot the payment took from; there is none if and only if it took from no deposit |
| CollateralAnswers.ConfirmExactly | src/collateral/collateral_position.rs:351-523 | with distinct lot IDs: which lots pay how much, what their spends gain, which lots are closed (the used-up ones before the boundary, in order, and no others), the numbers answered, and exactly when it fails |
| CollateralTheory.ConfirmClosingSucceeds | src/collateral/collateral_position.rs:502-521 | every lot that confirming would close is found again by its ID, so closing cannot fail |
| CollateralDrift.ConfirmClosesUsedUp | src/collateral/collateral_position.rs:409-412 | with distinct IDs only lots with nothing left, up to the tolerance, are closed |
| CollateralDrift.BoundedDrift | src/collateral/collateral_position.rs:176-521 | over any n nonnegative requests with fresh lot IDs the gap between each balance and its lots stays within a linear multiple of the tolerance, once what was confirmed beyond what the open lots held is moved from preauthorized to spent |
| CollateralDrift.NoToleranceNoDrift | src/collateral/collateral_position.rs:176-521 | without a tolerance the balances differ from the lots by exactly that excess, so they agree if and only if there is none |
| CollateralCareful.CarefulRunsDrift | src/collateral/collateral_position.rs:351-521 | for any tolerance, while no payment is confirmed for more than was authorized for it since it was last confirmed, each payment holds that much, and the spent balance agrees with the lots, up to a bound linear in the tolerance, the requests and the closed lots |
| CollateralCareful.CarefulRunsAreExact | src/collateral/collateral_position.rs:351-521 | without a tolerance such runs exceed nothing, close no lot, and keep balances and lots exactly equal |
| CollateralDrift.TwoPartsDrift | src/collateral/collateral_position.rs:449-482 | for any amount and any smaller tolerance: a payment of twice the amount confirmed in two halves leaves the spent balance off by the amount, because the first half drops what the spend still held |
| CollateralDrift.StoppingInsideALotIsExact | src/collateral/collateral_position.rs:205-245 | a call that stops inside a lot adds no drift |
| CollateralManager.Manager.HandleDeposit | src/collateral/collateral_manager.rs:240-269 | the client's position, new if need be, gets the deposit; no other client changes |
| CollateralManager.Manager.HandleWithdrawal | src/collateral/collateral_manager.rs:271-299 | the same on the debit side |
| CollateralManager.Manager.PreauthPayment | src/collateral/collateral_manager.rs:306-350 | a copy is committed only on success; an unknown client is an error |
| CollateralManager.Manager.ConfirmPayment | src/collateral/collateral_manager.rs:359-404 | the same for confirming |
| CollateralManager.Manager.BookRecords | src/collateral/collateral_manager.rs:617-671 | all of the booking's steps are committed or none |
| CollateralManager.Manager.CloseAllLots | src/collateral/collateral_manager.rs:569-611 | what the three steps leave is committed whatever they answer |
| CollateralManager.Manager.HandleTransferComplete | src/collateral/collateral_manager.rs:434-499 | the solver hears "ready" exactly when the booking was kept, otherwise the side is closed out |
| CollateralManager.Manager.HandleTransferFailed | src/collateral/collateral_manager.rs:500-565 | the fee is booked if possible and the side is closed out |
| CollateralBooking.RunsAreSolvent | src/collateral/collateral_position.rs:591-642 | after any nonnegative run no balance is below minus the tolerance |
| CollateralBooking.BookingNets | src/collateral/collateral_manager.rs:640-670 | a kept booking changes the side by exactly unconfirmed -(amount + fee), ready +amount, preauthorized 0, spent +fee |
| CollateralBooking.ClosingNets | src/collateral/collateral_manager.rs:588-610 | closing out leaves nothing unconfirmed and adds exactly that amount to spent |
| CollateralBooking.FailedTransferNets | src/collateral/collateral_manager.rs:531-549 | a failed transfer whose steps succeed ends with nothing unconfirmed and exactly the former unconfirmed amount added to spent |
| CollateralBooking.TransferCompleteExact | src/collateral/collateral_manager.rs:449-494 | after any run without tolerance, a finished transfer is booked exactly when the unconfirmed balance covers amount and fee, and is closed out otherwise |
| CollateralBooking.TransferFailedExact | src/collateral/collateral_manager.rs:531-549 | after any run without tolerance, a failed transfer spends exactly the unconfirmed balance |
| IndexOrder.IndexOrder.MatchCancel | src/solver/index_order.rs:370-458 | the scan from the back and its commit do what the recursive specification says |
| IndexOrder.IndexOrder.UpdateOrder | src/solver/index_order.rs:150-212 | push, reduce or flip, with the outcome reported |
| IndexOrder.IndexOrder.MatchEngage | src/solver/index_order.rs:462-532 | the scan from the front and its commit do what the recursive specification says |
| IndexOrder.IndexOrder.SolverEngage | src/solver/index_order.rs:248-268 | queues and totals after engaging an amount |
| IndexOrder.IndexOrder.MatchEngageOne | src/solver/index_order.rs:539-603 | engaging one update: fully engaged, front of the queue, or refused |
| IndexOrder.IndexOrder.SolverEngageOne | src/solver/index_order.rs:271-294 | the same with the totals; nothing changes on refusal |
| IndexOrder.IndexOrder.SolverComplete | src/solver/index_order.rs:296-307 | moves the first fully engaged update with the ID to the closed ones, or fails |
| IndexOrder.IndexOrder.SolverCancel | src/solver/index_order.rs:309-321 | closes every queued update with the ID and takes what they had left from the total |
| IndexOrder.IndexOrder.CollateralReady | src/solver/index_order_manager.rs:584-631 | charges the fee to update and order unless that leaves less than the collateral that arrived |
| IndexOrder.IndexOrder.FillOrderRequest | src/solver/index_order_manager.rs:844-908 | adds a fill to the engaged update and the order, or fails and changes nothing |
| IndexOrder.IndexOrder.DrainClosedUpdates | src/solver/index_order.rs:324-326 | empties the closed updates and reports the last one with the ID |
| IndexOrderTheory.StepStructured | src/solver/index_order.rs:396-411 | every operation keeps: only the front update can be engaged, all fully engaged ones are, the engaged side is the side |
| IndexOrderTheory.RunsAreStructured | src/solver/index_order.rs:520-529 | the same after any run |
| IndexOrderTheory.LiveEngagedUpdatesAreFound | src/solver/index_order.rs:340-366 | after any run every live engaged update is found by its ID, and is the one found |
| IndexOrderTheory.SendKeepsEngaged | src/solver/index_order.rs:170-193 | an incoming order, on either side, leaves the sum of engaged collateral as it was |
| IndexOrderTheory.StepOff | src/solver/index_order.rs:253-293 | each operation moves the difference between the order's total and its queue by at most the tolerance |
| IndexOrderTheory.ExactSteps | src/solver/index_order.rs:170-211 | push, flip, partial cancel, engaging more than there is, and cancelling by the solver keep it exactly (or make it zero) |
| IndexOrderTheory.RemainingIsItsQueue | src/solver/index_order.rs:253-293 | after n operations the order's remaining collateral is within n tolerances of its queue, while nothing fully engaged is given back beyond the tolerance |
| IndexOrderTheory.ReengagingFullyEngaged | src/solver/index_order.rs:546-562 | re-engaging a fully engaged update moves the difference by exactly minus the amount: within the tolerance if and only if no more than the tolerance is given back |
| IndexOrderTheory.EngageIsGreedy | src/solver/index_order.rs:462-532 | engaging is the greedy prefix: which updates are engaged whole, which one in part, and what is unmatched |
| IndexOrderTheory.EngagingAddsUp | src/solver/index_order.rs:248-268 | two engagements in a row give the queues, totals and unmatched amount of one engagement of the sum, whatever the second one is, if and only if the first stops inside an update or exhausts the queue |
| IndexOrderTheory.NoToleranceEndsClean | src/solver/index_order.rs:462-532 | without a tolerance every engagement stops inside an update or exhausts the queue |
| IndexOrderAnswers.CancelIsLastOut | src/solver/index_order.rs:370-458 | cancelling takes updates from the back: which ones are closed, which one is cut or counts as fully engaged, and what is unmatched |
| IndexOrderAnswers.UpdateTells | src/solver/index_order.rs:170-208 | a push adds to the remaining collateral what it says; a reduction says the new remaining collateral and removes what it says, or all of it; a flip leaves the unmatched amount on the new side as it says; and which of the three it is |
| IndexOrderAnswers.OutgrownIsTheQueue | src/solver/index_order.rs:172-185 | an order that outgrows an engaged order's queue is told that it removed just what was queued, which is the change of the remaining collateral if and only if the two were equal |
| IndexOrderAnswers.EngageExactly | src/solver/index_order.rs:248-268 | engaging takes the greedy prefix, and from the order's remaining to its engaged collateral what was not left over |
| IndexOrderAnswers.EngageOneExactly | src/solver/index_order.rs:271-294 | engaging one update works if and only if it is at the front, or the last fully engaged one and nothing worth counting is asked; what it takes, leaves and reports |
| IndexOrderAnswers.CancelExactly | src/solver/index_order.rs:309-321 | cancelling an ID closes all its queued updates, keeps all others, and takes what those had left from the order's total |
| IndexOrderAnswers.LastOfIsLast | src/solver/index_order.rs:324-326 | the update reported by draining is the last closed one with the ID |
| IndexOrderAnswers.ReadyExactly | src/solver/index_order_manager.rs:584-631 | the fee is refused if and only if no queued update has the ID or the first that does would be left with less than the collateral that arrived, beyond the tolerance; otherwise update and order are charged alike and nothing else changes |
| IndexOrderAnswers.FillExactly | src/solver/index_order_manager.rs:844-908 | which update a fill goes to, exactly when it is refused, and that update and order move engaged collateral to spent alike |
| IndexOrderAnswers.OrderIsItsUpdates | src/solver/index_order_manager.rs:601-631 | after any run an order's spent amount, filled quantity and fees are the sums over all its updates, the closed ones included |
| BatchLots.BatchAssetPosition.TryAllocateLots | src/solver/batch_manager.rs:181-229 | the loop hands out lots first in first out as the specification says: lots, what is left over, cost, error |
| BatchLots.BatchAssetPosition.CarryOver | src/solver/batch_manager.rs:422-425 | everything unallocated is handed over; the first lot stays behind empty |
| BatchLots.AllocationConserves | src/solver/batch_manager.rs:209-228 | for any tolerance what leaves the lots is what the order gets, and what was asked less what is left over |
| BatchLots.AllocationLeft | src/solver/batch_manager.rs:209-228 | more than the tolerance is left over if and only if the lots are short by more than that, and then exactly what they are short of; never less than minus the tolerance; the lots stay usable |
| BatchLots.AllocationNonNegative | src/solver/batch_manager.rs:209-228 | without a tolerance allocations have nonnegative quantities and costs |
| BatchManager.ComputeFillRate | src/solver/batch_manager.rs:765-823 | the loop finds the lowest rate over the basket, or the first error |
| BatchManager.AllocateAsset | src/solver/batch_manager.rs:861-866 | one asset's lots go to the order, in the position and with the order |
| BatchManager.AllocateAssets | src/solver/batch_manager.rs:846-888 | the loop allocates asset by asset and stops at the first error, keeping what was allocated |
| BatchManager.CreditOrder | src/solver/batch_manager.rs:890-958 | filled quantity, collateral and status after an allocation, and the request to the order manager |
| BatchManager.Manager.FillIndexOrder | src/solver/batch_manager.rs:712-971 | one order filled: batch, engagement, order, orders to mint and request |
| BatchManager.Manager.FillBatchOrders | src/solver/batch_manager.rs:973-994 | the engaged orders are filled in turn; the first error stops it |
| BatchManager.AddPositions | src/solver/batch_manager.rs:292-306 | one position per asset bought, and the volley is their total value |
| BatchManager.CarryInPositions | src/solver/batch_manager.rs:460-478 | each position takes what was carried over for it, which is then gone, and is not ordered |
| BatchManager.OrdersToSend | src/solver/batch_manager.rs:549-637 | the loop orders each asset that is not carried in and not negligible, at its price limit |
| BatchManager.CarryOutPositions | src/solver/batch_manager.rs:413-458 | what each position did not allocate is added to what was carried over |
| BatchManager.CollectMints | src/solver/batch_manager.rs:1317-1333 | fully mintable orders, and partly mintable ones that waited long enough, leave the orders to mint |
| BatchManager.ContinueOrders | src/solver/batch_manager.rs:1346-1379 | engaged and partly mintable orders go on, their engaged collateral set aside |
| BatchManager.Manager.HandleNewEngagement | src/solver/batch_manager.rs:1091-1101 | an engagement is kept under its ID, a second one is refused |
| BatchManager.Manager.HandleEngageIndexOrder | src/solver/batch_manager.rs:1103-1184 | each order takes its answer or becomes invalid, and the batch is ready |
| BatchManager.Manager.SendBatch | src/solver/batch_manager.rs:642-710 | the new batch with what is carried in, the volley, and the orders sent to the exchange, on success and failure |
| BatchManager.Manager.CompleteBatch | src/solver/batch_manager.rs:1260-1417 | carry-over, orders to mint, orders that go on, volley and events |
| BatchManager.Manager.HandleNewLot | src/solver/batch_manager.rs:1186-1223 | an execution becomes a lot and the batch's orders are filled |
| BatchManager.Manager.HandleCancelOrder | src/solver/batch_manager.rs:1225-1258 | a cancelled asset; the batch completes when all are |
| BatchManager.Manager.SendMoreBatches | src/solver/batch_manager.rs:1008-1065 | ready batches are sent and filled from what was carried in; it fails when any of that does |
| BatchManager.Manager.CleanupBatches | src/solver/batch_manager.rs:996-1006 | cancelled batches go with their engagements |
| BatchManager.Manager.ProcessBatches | src/solver/batch_manager.rs:1067-1085 | cleanup only after everything succeeded; the number of batches left is reported |
| BatchRuns.NewLotIsSteps | src/solver/batch_manager.rs:1186-1223 | an execution report is a sequence of small steps |
| BatchRuns.CancelIsSteps | src/solver/batch_manager.rs:1225-1258 | so is a cancelled asset |
| BatchRuns.ProcessIsSteps | src/solver/batch_manager.rs:1067-1085 | so is a round of batch processing |
| BatchRuns.AnswersOnly | src/solver/batch_manager.rs:1125-1176 | the order manager's answers change collateral and status of orders and nothing the batches hold |
| BatchRuns.CarryAllCarriesOnce | src/solver/batch_manager.rs:1374-1378 | an order listed once carries its engaged collateral over once |
| BatchRuns.ContinuedContinue | src/solver/batch_manager.rs:1358-1379 | only engaged or partly mintable orders go on |
| BatchAnswers.FirstEngagementStays | src/solver/batch_manager.rs:1091-1101 | an engagement is refused if and only if its ID is taken, and never replaces another |
| BatchAnswers.FillTells | src/solver/batch_manager.rs:933-968 | each fill that advances an order, and nothing else, is told the order manager, with the advance of the order and its engagement; the order then waits to be minted if and only if it was engaged and passed the mint threshold |
| BatchAnswers.NothingLeftToFill | src/solver/batch_manager.rs:1186-1223 | after an execution that goes through, every order of the batch is fully mintable or could not be filled any further by the threshold or more |
| BatchAnswers.AnswersTaken | src/solver/batch_manager.rs:1125-1179 | every listed order has what was engaged plus what was carried over, or is invalid when the answer does not mention it; no other order changes, and the batch is the last of the ready ones |
| BatchAnswers.CancelCompletes | src/solver/batch_manager.rs:380-411 | a cancel is noted on its position, and the batch completes with the cancel after which all positions are cancelled, and with every later one |
| BatchAnswers.RoundTakes | src/solver/batch_manager.rs:1008-1085 | a round takes the oldest ready batches up to the maximum; it succeeds if and only if all engaged ones can be sent and their first fills succeed, and only then removes the cancelled batches and their engagements |
| BatchMessages.SendOpens | src/solver/batch_manager.rs:642-696 | a sent batch has one position per asset, with the ordered quantity, its value, and whatever was carried over, which leaves the carry-overs; it is cancelled from the start if and only if all assets were carried in |
| BatchMessages.SendTells | src/solver/batch_manager.rs:590-700 | an asset is ordered from the exchange if and only if its position is not cancelled and counts on more than the threshold, and then for just that quantity and at the price limit |
| BatchMessages.CompletedOrdersFillTheBatch | src/solver/batch_manager.rs:326-333 | executions of all that the positions count on bring the filled fraction to one |
| BatchMessages.SecondSendReplaces | src/solver/batch_manager.rs:673-690 | a second batch under the same ID is an error after it took the first one's place and what was carried over |
| BatchMessages.CompletionTells | src/solver/batch_manager.rs:1317-1414 | a completion publishes the waiting orders that are due, now fully mintable, if there are any, and last the batch's engaged and partly mintable orders in the batch's order; exactly these have their engaged collateral set aside |
| BatchMessages.CompletionCarries | src/solver/batch_manager.rs:413-458 | what each position did not allocate is added, lot by lot and in order, to what was carried over of the asset |
| BatchMessages.FullyMintableIsPublished | src/solver/batch_manager.rs:1317-1333 | with mint threshold at most fill threshold no fully mintable order outlives a completion without being published |
| BatchFigures.ExecutionBooks | src/solver/batch_manager.rs:308-378 | an execution is booked if and only if its asset was ordered and the batch has a volley; it adds its value and fee to position and batch and opens its lot last |
| BatchFigures.FiguresAreBooked | src/solver/batch_manager.rs:308-378 | after any run each position holds what was carried in and executed, value and fees of positions and batch are those of the executions booked since it was sent, and the batch was last updated by the last of these |
| BatchFillTheory.WithinShare | src/solver/batch_manager.rs:767-823 | at the rate found an order takes no more of any asset than its fraction of the position |
| BatchFillTheory.LotsHoldTheRestOfAShare | src/solver/batch_manager.rs:858-860 | in a fair batch the open lots hold what is left of an order's share, whatever the others took |
| BatchFillTheory.AllocationShortage | src/solver/batch_manager.rs:861-875 | in a fair batch a shortage that a fill reports is above the tolerance and at most the batch's slack |
| BatchFillTheory.NeverShort | src/solver/batch_manager.rs:861-875 | in a fair batch without a tolerance a fill never reports insufficient lots |
| BatchFillTheory.FillKeepsFair | src/solver/batch_manager.rs:846-896 | a fill keeps the batch fair, with the tolerance added to the slack |
| BatchFillTheory.BasketFailsExactly | src/solver/batch_manager.rs:846-888 | handing out a basket fails, with insufficient lots, if and only if some asset's open lots fall short of what is asked by more than the tolerance |
| BatchFillTheory.FillFailsExactly | src/solver/batch_manager.rs:861-875 | a fill reports insufficient lots if and only if the rate lets the order ask for at least the tolerance more and some asset has too few lots for it, in fair batches and others |
| BatchFillAnswers.StatusExactly | src/solver/batch_manager.rs:933-968 | after a fill at rate r an order is fully mintable if and only if r passes the fill threshold, partly mintable if and only if it does not but the order was or r passes the mint threshold, and the request says the same; without a request the status stays |
| BatchFillAnswers.FillIsGreatest | src/solver/batch_manager.rs:765-843 | a fill fills the greatest quantity that the engagement, the order's shares and its contributions allow; nothing is filled only if no allowed quantity exceeds the filled one by the threshold |
| BatchFillAnswers.FirstInFirstOut | src/solver/batch_manager.rs:181-229 | allocation hands out the first lots whole and of the next one what is then missing, each with its ID, price, sizes and share of the fee, and closes the whole ones |
| BatchFillAnswers.FillHandsOut | src/solver/batch_manager.rs:846-968 | a fill hands out, asset by asset and first in first out, lots for the quantity it fills, charges the order what these cost, and requests just that; no other position changes |
| BatchFillAnswers.UnfilledExactly | src/solver/batch_manager.rs:728-843 | why an order is not filled: its status, or the first asset of its basket without a position, fraction, contribution or need; and then it stays as it was |
| BatchShortage.ShortExactly | src/solver/batch_manager.rs:861-875 | the same for every fill after any run of steps, also after earlier shortages and in completed batches |
| BatchShortage.ToleranceRunsShort | src/solver/batch_manager.rs:209-228 | for every tolerance above zero there is a legal run in which a fill runs short: two executions that the first order takes whole, then the second order's share |
| BatchShortage.NeverShortExactly | src/solver/batch_manager.rs:861-875 | no legal run ever has a fill that runs short if and only if the tolerance is zero |
| BatchShortage.LateExecutionRunsShort | src/solver/batch_manager.rs:1186-1223 | for every tolerance below ten: after a legal run, a late execution of one asset in a completed batch makes a fill hand that lot out and then ask again for the lots of the other asset, which were carried over |
| BatchSafety.StepKeepsSound | src/solver/batch_manager.rs:308-1417 | every step keeps: open lots cover the rest of every share, no order beyond its share, carry-overs worth their lots |
| BatchSafety.CarriedIsItsLots | src/solver/batch_manager.rs:426-448 | after any run whatever, the quantity carried over of an asset is exactly the sum of what its carried lots hold |
| BatchSafety.ShortageIsBounded | src/solver/batch_manager.rs:861-875 | for any tolerance the first fill to run short in a run is short by at most the tolerance times the steps |
| BatchSafety.NeverShortOnRuns | src/solver/batch_manager.rs:858-875 | without a tolerance no fill ever runs short, over all interleavings of batches, fills, completions and answers, while completed batches are left alone and executed assets have an order value |
| BatchVolley.SentAssetsAreBooked | src/solver/batch_manager.rs:590-640 | whatever happens after a batch was sent, an asset that its message ordered has an order value, so its executions are booked |
| BatchConservation.AllocateMoves | src/solver/batch_manager.rs:209-228 | allocation moves quantity, and the fee for it, from lots to the order, in any state and for any tolerance |
| BatchConservation.FillMoves | src/solver/batch_manager.rs:846-904 | so does a fill, whether or not it succeeds |
| BatchConservation.CarryOutMoves | src/solver/batch_manager.rs:422-447 | completing a batch moves all it holds into the carry-overs |
| BatchConservation.CarryInMoves | src/solver/batch_manager.rs:465-474 | a new batch takes over exactly what was carried over for it |
| BatchConservation.StepConserves | src/solver/batch_manager.rs:308-1417 | every step accounts for every lot, in quantity and in fees, of all lots or of one |
| BatchConservation.RunsConserve | src/solver/batch_manager.rs:308-1417 | after any run the quantity acquired per asset and side, and its fees, are in batches, in carry-overs, with orders, minted, or were dropped with an uncompleted batch |
| BatchLosses.NothingIsLostExactly | src/solver/batch_manager.rs:996-1006 | over any run nothing is dropped, in quantity or fees, of all lots or of one, if and only if no batch that still holds something is cleaned up or sent again |
| BatchLosses.FailingRound | src/solver/batch_manager.rs:1008-1065 | a round whose first fill fails sends the batch and stops there: the batch is not completed, even when all it needs was carried in, and nothing is cleaned up |
| BatchLosses.FailedBatchIsLost | src/solver/batch_manager.rs:1067-1085 | what was carried over for such a batch leaves the carry-overs with it and is gone after the next idle round |
| BatchLossRun.LotsAreLost | src/solver/batch_manager.rs:1317-1333 | for every tolerance above zero and any quantity not below it a run of the manager's own events, each batch's orders answered, that loses it: a partly mintable order goes on into a batch with the quantity carried over for it, and is published and minted before that batch is sent |
| BatchConservation.UsedUpLotsPassedOnTheirFee | src/solver/batch_manager.rs:83-113 | a lot with nothing left anywhere passed on all its quantity and exactly its fee, through all splits and carry-overs |
| BatchMints.StatusOnlyClimbs | src/solver/batch_manager.rs:933-956 | a fill moves the status only from engaged to partly to fully mintable |
| BatchMints.MadeMintable | src/solver/batch_manager.rs:933-956 | an order made mintable is put among the orders to mint, unless the rate passes the fill but not the mint threshold (if and only if) |
| BatchMints.MintableOrdersAreSafe | src/solver/batch_manager.rs:1317-1333 | with mint threshold at most fill threshold every mintable order waits or was published, never both |
| BatchMints.PublishedOnce | src/solver/batch_manager.rs:1317-1379 | no order is published twice, and what a completion publishes does not go on into another batch |
| BatchMints.WaitsUntilPublished | src/solver/batch_manager.rs:1317-1333 | a waiting order stays until a completion publishes it |
| BatchMints.NeverPublished | src/solver/batch_manager.rs:1317-1333 | an order that is not engaged and does not wait is never published, over any steps that do not change it from outside |
| BatchMints.NeverForgottenExactly | src/solver/batch_manager.rs:946-956 | no fit run ever leaves an order mintable, not published and not waiting, if and only if the mint threshold is at most the fill threshold |
| BatchRates.FillAdvances | src/solver/batch_manager.rs:890-916 | without a tolerance a fill only moves engaged collateral to spent, and reports the spent share of all but the carried collateral |
| BatchRates.StepMoves | src/solver/batch_manager.rs:1137-1158 | every step keeps an order's total collateral, but for what an answer brings back of late spending, and takes nothing back from what was spent |
| BatchRates.SpentShareFallsExactly | src/solver/batch_manager.rs:890-904 | through any number of batches an order's collateral grows by exactly what answers bring back; its spent share falls if and only if that outgrows what is spent, and never while nothing is brought back |
| BatchReports.ReportsFallExactly | src/solver/batch_manager.rs:908-968 | of two fill rates reported for an order the later one is lower if and only if the collateral that counts grew by a larger share than what is spent; never when no less is carried beyond what was brought back, and with nothing spent in between exactly then |
| BatchReports.LateFillReportFalls | src/solver/batch_manager.rs:908-916 | a run from the empty state, with the answers of the order manager, in which the reported rate falls from a twentieth to five in 205: a late lot is handed out while the order's collateral is carried over, then the next batch has its first fill |
| BatchPrices.LotsKeepTheirPrice | src/solver/batch_manager.rs:181-229 | after any run every lot of an order was executed at the price it carries, through splits, carry-overs and hand-outs |
| BatchVolley.TotalVolleyIsLive | src/solver/batch_manager.rs:682-690 | the total volley is that of the batches not completed, and zero when there are none |
| BatchVolley.FilledVolleyIsExecuted | src/solver/batch_manager.rs:330-333 | a batch's filled volley is each asset's executed share of its order, weighed by the asset's value |
| BatchVolley.FilledFractionIsAShare | src/solver/batch_manager.rs:330-333 | the filled fraction is between zero and one while no asset is executed beyond its order |
| ManagerEvents.EventIsProper | src/solver/batch_manager.rs:1067-1258 | every event that spares cancelled batches takes only allowed steps, and keeps completed batches cancelled and ready ones unsent |
| ManagerEvents.EventsAreProper | src/solver/batch_manager.rs:1067-1258 | a run of such events is a run of allowed steps and ends in the same state |
| ManagerEvents.EventsNeverRunShort | src/solver/batch_manager.rs:858-875 | without a tolerance no event of such a run, failing rounds included, meets insufficient lots, nor could any fill in a batch that is not cancelled |
| ManagerEvents.EventsLoseNothing | src/solver/batch_manager.rs:996-1065 | while rounds of processing succeed nothing acquired is lost, in quantity or fees |
| ManagerEvents.EventsKeepVolley | src/solver/batch_manager.rs:1078-1089 | while rounds succeed the total volley is that of the batches not cancelled, and zero when idle |
| UpdateLedger.ElsewhereKeepsMine | src/solver/index_order.rs:150-321 | operations on other updates of the order leave an update as it was and where it was, unless they make the order manager remove the order |
| UpdateLedger.EngageMine | src/solver/index_order.rs:539-603 | what engaging does to the update and what it reports |
| UpdateLedger.FillMine | src/solver/index_order_manager.rs:848-908 | an engaged update is found and filled |
| UpdateLedger.CompleteMine | src/solver/index_order.rs:296-307 | an update can be completed if and only if it is among the fully engaged ones |
| OrderDesk.Desk.HandleCollateralReady | src/solver/solver.rs:977-1015 | routed collateral: payment preauthorized, fee charged, answers on their way; a failed preauthorization stops before the order manager is asked |
| OrderDesk.Desk.HandleCollateralAcknowledged | src/solver/solver.rs:1346-1365 | the acknowledged amounts are taken over; the second of two events puts the order in the queue |
| OrderDesk.Desk.HandlePreAuthApproved | src/solver/solver.rs:1100-1127 | the same for the authorization; a second one is an error |
| OrderDesk.Desk.EngageMore | src/solver/solver.rs:542-580 | the order leaves the queue and the order manager is asked for the new collateral |
| OrderDesk.Desk.HandleEngaged | src/solver/batch_manager.rs:1136-1168 | the answer is taken over and the order is in a batch |
| OrderDesk.Desk.HandleFill | src/solver/batch_manager.rs:890-968 | a fill is booked by the solver and reported to the order manager at once |
| OrderDesk.Desk.HandleBatchComplete | src/solver/solver.rs:917-939 | an order that goes on is queued again with its collateral carried over |
| OrderAnswers.RouteTells | src/solver/solver.rs:977-1015 | the fee is charged unless the preauthorization fails or too little would remain, and then the solver is told what the charged update has left and has spent; the routed amount is noted in any case |
| OrderAnswers.AcknowledgementTakenOver | src/solver/solver.rs:1346-1365 | the order takes over what it was told and is ready, or queued when it was ready already |
| OrderAnswers.AuthorizationTakenOver | src/solver/solver.rs:1100-1127 | the order pays with the payment authorized last, but only the first authorization readies or queues it |
| OrderAnswers.RequestTells | src/solver/solver.rs:542-580 | the solver is told as engaged what the order gave up of its remaining collateral, and as remaining what its update has left, unless that was fully engaged before |
| OrderAnswers.AnswerTakenOver | src/solver/batch_manager.rs:1136-1168 | the order has what was engaged plus what was carried over, and a ready one is engaged |
| OrderAnswers.CompletionContinues | src/solver/batch_manager.rs:1317-1379 | a due partly mintable order becomes fully mintable, any other order that was being filled is queued with its engaged collateral carried over |
| OrderManager.Manager.CollateralReady | src/solver/index_order_manager.rs:571-662 | the fee is charged to the user's order, or nothing changes |
| OrderManager.Manager.FillOrderRequest | src/solver/index_order_manager.rs:832-932 | the fill is added to the user's order, or nothing changes |
| OrderManager.Manager.EngageOrders | src/solver/index_order_manager.rs:1002-1086 | the batch's orders are engaged in turn and answered together; after an error nothing is answered and earlier engagements stay |
| OrderManager.Manager.OrderFailed | src/solver/index_order_manager.rs:934-1000 | the update is cancelled and its collateral leaves the order |
| OrderManager.Manager.OrderRequestMinted | src/solver/index_order_manager.rs:743-829 | the update is completed, drained and invoiced; the order goes when its queue is empty; the invoice is for the ID, payment, quantity and lots given, and its amount paid is the one given and the fee |
| OrderManager.EngageAllIsOps | src/solver/index_order_manager.rs:1011-1072 | a batch of engagements does to each user's order what its own requests do in turn, and nothing to the others |
| OrderManager.EngageAllIsEngageOne | src/solver/index_order_manager.rs:1032-1066 | a batch of engagements does to one update what engaging it alone does, the other requests are elsewhere, and its answer is its own unless a later request has the same address and ID |
| OrderManager.AnswersMentionRequests | src/solver/index_order_manager.rs:1032-1072 | a batch of engagements that is answered mentions exactly the orders that were requested |
| OrderManager.OtherMintKeepsMine | src/solver/index_order_manager.rs:672-688 | when another update is minted this one stays as it was if and only if some update is left in the queue; otherwise the order is removed with it |
| OrderBooks.FillEffect | src/solver/batch_manager.rs:846-968 | a fill moves what it spends out of the engaged collateral; one that is reported spends exactly the cost of the lots it hands out, and one that is not reported and did not fail changes nothing |
| OrderBooks.RunsBook | src/solver/index_order_manager.rs:844-908 | over every run that leaves the update to its own messages, failing and late fills included: the paid-in amount is the update's spent, remaining and engaged collateral, and with the cost of lots not booked, what it spent is the fee and the cost of the order's lots |
| OrderBooks.SuccessfulRunsAreBooked | src/solver/index_order_manager.rs:844-908 | when every fill succeeds nothing is handed out without being booked |
| OrderInStep.StepKeepsAccount | src/solver/solver.rs:953-1372 | every step, late and failing fills and unfitting requests included, changes the difference between the ledgers exactly as accounted, counting the messages on their way |
| OrderInStep.LedgersAgreeExactly | src/solver/index_order_manager.rs:591-618 | with no message on its way the ledgers differ by exactly the run's account in remaining, engaged plus carried, spent and filled, so they agree if and only if it is nothing; the paid-in amount is accounted for |
| OrderInStep.LedgersAgree | src/solver/index_order_manager.rs:591-618 | it is nothing while fills succeed in running batches and requests fit, across any number of batches |
| OrderInStep.ReadyExactlyOnce | src/solver/solver.rs:1107-1123 | the order gets ready exactly once, after both events in either order, and is never in two of queue, request and batch |
| OrderInStep.RequestsStayInStepExactly | src/solver/index_order_manager.rs:1032-1062 | an engagement keeps the ledgers in step if and only if what is over-reported makes up for what was handed out late, and nothing remains of an update that counts as fully engaged |
| OrderInStep.LateFillPartsLedgers | src/solver/batch_manager.rs:1186-1223 | after a late fill, a request that fits and its answer the solver has more engaged, by exactly what the fill spent: the ledgers agree if and only if it spent nothing |
| OrderExamples.LateFillLeavesStep | src/solver/batch_manager.rs:1136-1158 | one order's runs in both ledgers and in the batches, from the deposit and from the empty state: a lot of five reported late leaves the solver with five more engaged |
| OrderInStep.AnswersKeepTheTotal | src/solver/index_order_manager.rs:1046-1062 | an answer leaves the sum of remaining and engaged collateral as the solver had it |
| OrderInStep.AuthorizationCountsOnce | src/solver/solver.rs:1100-1123 | an authorization, however often it comes, keeps the ledgers in step, and readies the order if and only if it is the first one and the collateral was acknowledged |
| OrderInStep.FailedFillInStepExactly | src/solver/batch_manager.rs:846-904 | a fill that stops for lack of lots leaves the ledgers in step if and only if the lots it handed out until then cost nothing |
| OrderExamples.ShortFillLeavesStep | src/solver/batch_manager.rs:861-888 | one order's runs in both ledgers and in the batches, for every tolerance below ten: a late lot of ten is handed out before the fill runs short of the other asset, and the ledgers are not in step any more |
| MintInvoice.CompressTotals | src/solver/solver_order/solver_order.rs:102-151 | one assignment per lot; the total quantity and fee as before, and the total cost but for what takes another assignment's price |
| InvoiceLots.EntriesAreLots | src/solver/solver_order/solver_order.rs:102-151 | one entry for each lot that was assigned, under the symbol without its quote currency: its quantity and fee are the sums over the lot's assignments, what remains is the least any of them left, price and size are those of one of them |
| MintInvoice.MintedExactly | src/solver/index_order_manager.rs:757-794 | there is an invoice if and only if the payment is authorized, the update is fully engaged and more than the fee was paid in |
| MintInvoice.BookedInvoiceBalances | src/solver/mint_invoice.rs:320-347 | an invoice names the order's update, its authorized payment, what it was filled with, what was routed and the fee as paid, and its lots' fees; its total is assets value, exchange fee, management fee and what remains, less what merged assignments are mispriced and lots that were not booked; its fill rate is the assets' share |
| MintInvoice.InvoiceBalances | src/solver/mint_invoice.rs:320-347 | the same for every run, late and failing fills and unfitting engagements included: the total is the amount that was paid in, the amount paid is what was routed last and the fee, so all of it when it was routed less the fee, and the invoice balances if and only if mispriced and unbooked cost cancel; nothing is unbooked when fills succeed, and nothing mispriced when each lot has one price |
| MintInvoice.LotsAreNotMispriced | src/solver/batch_manager.rs:308-335 | over batch runs in which the exchange reports a lot at one price no order's assignments are mispriced |
| OrderExamples.SomeOrderIsInvoiced | src/solver/index_order_manager.rs:743-829 | a legal run from deposit over engagement, fill and completion to an invoice with assets worth eight exists: the results about invoices are not empty |
| MintInvoice.NoToleranceNoInvoice | src/solver/index_order_manager.rs:743-794 | without a tolerance no run, however long, gets an order to an invoice while no order comes on the opposite side: its update never leaves the queue |
| MintInvoice.OppositeOrderEngages | src/solver/index_order.rs:396-411 | without a tolerance an order on the opposite side puts the partly engaged update among the fully engaged ones if and only if it is larger than all that remains in the queue |
| QuoteQueues.SolverClientQuotes.GetNextClientQuote | src/solver/solver_quote.rs:95-119 | hands out the front quote of the front client once its wait is over |
| QuoteQueues.SolverClientQuotes.AddClientQuote | src/solver/solver_quote.rs:121-176 | refuses a repeated ID, otherwise queues the quote and notifies for a new queue |
| QuoteQueues.SolverClientQuotes.CancelClientQuote | src/solver/solver_quote.rs:178-218 | removes the quote and, for a front quote, notifies for the next one |
| QuoteQueues.RunsAreConsistent | src/solver/solver_quote.rs:131-216 | after any run the quote map and the queues hold the same IDs without repeats, and no queue is empty |
| QuoteQueues.StepHealthy | src/solver/solver_quote.rs:184-216 | a client stays in the notify queue at most once if and only if no quote is cancelled while it waits to be handed out |
| QuoteQueues.RunsHandOutInOrder | src/solver/solver_quote.rs:95-119 | quotes are handed out per client in the order of their arrival |
| QuoteQueues.HandedOutOnce | src/solver/solver_quote.rs:95-119 | each quote is handed out at most once when none is cancelled early |
| QuoteQueues.HandsOutWaited | src/solver/solver_quote.rs:95-119 | after any run without early cancels the front quote of the front client is handed out if and only if it waited, as it was added |
| QuoteQueues.ClientsTakeTurns | src/solver/solver_quote.rs:95-216 | a client joins the end of the notify queue with its first quote or when its front quote is cancelled before others, and leaves the front when its quote is handed out |
| QuoteQueues.PrematureCancelHandsOutTwice | src/solver/solver_quote.rs:184-216 | otherwise one can be handed out twice, by example |

## Assumptions

- Checked arithmetic fails only on division by zero; an absent amount plus x is x. Division of decimals with limited
  digits is division of reals.
- Generated IDs are new, asset orders of one batch list each asset once, a basket lists each asset once, and a batch
  lists each order once where a result says so.
- The strategy's fractions of an asset add up to at most one over a batch's orders
  (`src/solver/batch_manager.rs:1824-1825`).
- Calls of the batch manager to its host succeed, unless the model shows their error.
- In `OrderBooks`, `OrderInStep` and `MintInvoice` the other updates of the user's order are free to change, except by
  orders on the opposite side and by a mint after which the order manager removes the order
  (`OrderManager.OtherMintKeepsMine`).

## Left out

- Threads, channels, locks, spans and logging: only the event steps are modelled, with the messages on their way.
- Application builders, queries, the server, examples and anything deprecated: plumbing without ledgers.
- Persistence and serialization of the managers' state.
- The solver strategy, the router, inventory, order books and prices: what they decide is an input.
- `IndexOrder::cancel_updates`: nothing calls it.
- Shutdown: it does not wait for batches.
- Decimal overflow and rounding to 28 digits.
- Timestamps, except where a decision depends on them.
- The client order queue of the solver (`SolverClientOrders`) and putting orders back after the strategy failed: an order that is put back is queued as before.
- MintInvoice.CompressTotals: the order of the result, by time in the program, is not modelled.
- BatchSafety.NeverShortOnRuns: holds for runs in which executions have a positive quantity and meet an asset and a batch with an order value, as those of sent assets do (`BatchVolley.SentAssetsAreBooked`), and in which no execution or fill reaches a completed batch; `BatchShortage.LateExecutionRunsShort` runs short otherwise.
- ManagerEvents.EventsLoseNothing: needs every round of processing to succeed, because a batch whose first fill failed is removed with its lots; `BatchLosses.NothingIsLostExactly` has the exact condition on steps.
- BatchSafety.ShortageIsBounded: says nothing after the first fill that ran short, because that fill keeps lots without counting them.
- OrderManager.Manager.OrderRequestMinted: the deposit number, symbol, timestamp and position attached to an invoice, which are passed through, and the printed report, which divides by the quantity of each asset, are not modelled.
- BatchVolley.TotalVolleyIsLive: a batch that is removed without being completed leaves its volley in the total; such runs are excluded.
- BatchFillAnswers.UnfilledExactly: an order with an empty basket is an error here; the program stops on it.
- The exchange's order IDs and creation times in a batch of orders, which the host and the clock give.
- BatchManager.AddPositions: an asset listed twice in a batch's orders is not modelled, since batches are built with one order per asset.
- OrderDesk.Desk.EngageMore: one order alone; that a batch of requests does the same to it is `OrderManager.EngageAllIsEngageOne`, and a batch that fails half way is in `OrderManager.Manager.EngageOrders`.
