# Procurement: proofs about the ledger, approvals, outbox, migrations and supplier advice

A Dafny model of the parts of the procurement backend where several writers share
state, with machine-checked proofs of what they keep. `dafny verify dfyconfig.toml`
checks everything.

- **Ledger** (`Ledger*.dfy`, `Totals.dfy`): budgets, requisitions, purchase orders
  and receipts, and the three stages money passes through (`pre_committed`,
  `committed`, `spent`). `LedgerModel` says what each transaction does, once with the
  floors at zero the SQL has and once with plain subtraction. `LedgerBooks` defines the
  sums the balances stand for. `LedgerTheorems` and `LedgerRuns` prove which
  transactions keep them and what whole runs keep. `LedgerService` is the class with
  the mutable tables, one method per committed transaction, proved against the model.
  `LedgerReceipts` and `LedgerSpend` follow receipts and what they spend over runs.
  `LedgerRules`, `LedgerOrderRules` and `LedgerRefusals` say, in the columns of the rows
  alone, when each transaction is accepted, what it writes and why it is refused.
- **Approval** (`Approval*.dfy`): the signature ledger against the amount matrix,
  on top of the ledger. `ApprovalRules` says who may sign and reject, and when.
- **Outbox** (`Outbox*.dfy`, `Backoff.dfy`): publishers that claim, dispatch, mark and
  crash over one table, as steps; retry delays in wrapping 64-bit arithmetic.
- **Migrations** (`Splitter*.dfy`, `Migration*.dfy`): the statement splitter and the
  runner over positional versions. `MigrationRules` ties an upgrade to what its
  statements do.
- **Supplier quality** (`VendorQuality.dfy`): quality's advice beside procurement's decision.

## How to read it

Money is an integer number of minor units, so the tests with a tolerance of 0.005 become
strict comparisons; quantities are whole. Ids the database draws are parameters, and one
already in use is refused. Each transaction is one step, and an error leaves every table
as it was. Clocks, delays, broker replies, the SQL engine and the conversion of a float
too large for 64 bits are parameters.

A transaction is *safe* (`LedgerSteps.Safe`) when it is refused or meets the exact condition
for keeping the books, given below. It is *clean* (`LedgerRuns.Clean`) when it is none of the
transitions (a) to (f) listed there: the same condition without the cases in which such a
transition happens to do no harm, and with lapse closes allowed.

## What turned out false, and exactly when it holds

- *The balances are the sums they stand for.* Not through every transaction the code
  accepts. `LedgerSteps.Guard` is the exact condition, proved in both directions by
  `LedgerTheorems.BooksIffSafe`. What it excludes: (a) editing the total or budget of a
  live reservation, (b) approving a requisition again after an order liquidated it,
  (c) changing the budget of an encumbered order, (d) pointing a recognized receipt at
  another order, (e) posting or un-posting a receipt on an order whose encumbrance was
  released, (f) posting or un-posting one on an order that never encumbered its budget,
  because it was raised without one or at nothing, and a lapse close of a budget in use.
  `LedgerWitness` gives runs from empty tables for each of (a) to (f).
- *Commitments and spend stay within the allocation.* Encumbering is checked against the
  allocation; spending is not. An order that never encumbered its budget is received in full
  whatever is left (`LedgerWitness.UnencumberedPostingOverruns`, a run of safe transactions).
  `CreateBudget` accepts a negative allocation, which nothing can stay within
  (`LedgerRuns.NegativeAllocationIsPastItsCeiling`), and `UpdateBudget` may go below what is
  used. `LedgerRuns.Affords` is the exact condition for any transaction in any state within
  its ceiling (`LedgerRuns.CeilingIffAfforded`, `LedgerRuns.CeilingThroughoutIff`).
- *The delay before retry n is min(2^n s, 5 min).* True to 33 attempts. At 34 the 64-bit
  product wraps to a negative delay and the row is due at once, so two claims can fall
  together (`Backoff.CappedPowerIff`, `OutboxTheorems.ThirtyFourthFailureIsReclaimedAtOnce`).
  Claims stand the hold time apart unless such a failure was recorded between them.
- *Required tiers are the lowest of the matrix.* Exactly when the bands rise
  (`ApprovalTheorems.LowestTiersIffRising`).
- *An order at or over the approval threshold waits for somebody else.* It starts on hold
  (`LedgerOrderRules.RaisedOnHold`) and its creator cannot set it to approved. The test looks
  at that status only: the creator may set it to ordered, received or closed, receive goods
  on it, and un-posting them then calls it approved (`LedgerWitness.CreatorClearsAlone`).
  `LedgerOrderRules.CreatorReleasesIff` is the exact condition and
  `LedgerOrderRules.OffHoldByAnEdit` what holds over every run.
- *Received quantities match the receipts after an order edit.* Exactly when no item of
  the replaced lines has been delivered (`LedgerQuantities.ReplacedLinesIff`).

Where code and comments disagree the model follows the code:

- internal/repo/procurement_update_delete_more.go:938-945 says a blank purchase order id
  clears a receipt's link. The code passes NULL (lines 968-976), which leaves it as it is.
- internal/repo/vendor_quality.go:84-90 says the result reports whether a vendor matched.
  It is false also when every vendor matched holds later advice.
- A requisition whose required tiers have all signed, and which is open again, is approved
  by the next call without any tier permission (internal/repo/requisition_approval.go:264-307).

## Model

| member | source | states |
|---|---|---|
| `LedgerTheorems.BooksIffSafe` | internal/repo/requisition_outcome.go:43-369 | From balanced books, one transaction of any kind leaves them balanced (documents well formed; each budget's `committed` is the sum of `total - recognized` over its encumbered orders, `pre_committed` the sum of live reservations, each order's recognized spend the sum over its receipts) if and only if it is refused or meets a guard a caller can evaluate beforehand |
| `LedgerRuns.BooksThroughoutIffSafe` | internal/repo/requisition_outcome.go:43-369 | Over any run: the books are balanced at every point exactly when every transaction meets that guard when it is made |
| `LedgerTheorems.SafeStepTracks` | internal/repo/requisition_outcome.go:130-205 | Each balance moves by exactly what the sum behind it moved by, stopping at zero, in every safe transaction that is no lapse |
| `LedgerTheorems.RowsSoundAlways` | internal/repo/requisition_outcome.go:72-95 | `remaining` is the allocation less the three stages, and no stage is negative, after any transaction at all, the unsafe ones, lapse and carry closes and allocation edits included |
| `LedgerRuns.AnyRunKeepsRowsAndGates` | internal/repo/requisition_outcome.go:150-205 | The same over any run without condition, with the receipt gate |
| `LedgerRuns.LapsedRun` | internal/repo/budget_period.go:26-95 | Over any run of safe transactions and lapse closes no balance ever exceeds its sum |
| `LedgerRuns.EmptyTablesInOrder` | internal/repo/requisition_outcome.go:43-369 | An empty database satisfies everything the runs start from |
| `LedgerUnsafe.ReservationEditBreaksBooks` | internal/repo/procurement_update_delete.go:202-216 | Every edit of the total or budget of a live reservation that the guard excludes unbalances the books |
| `LedgerUnsafe.SecondReservationBreaksBooks` | internal/repo/requisition_outcome.go:48-80 | Every excluded second approval of a requisition already liquidated does |
| `LedgerUnsafe.RebudgetBreaksBooks` | internal/repo/procurement_update_delete_more.go:782-828 | Every excluded change of an encumbered order's budget does |
| `LedgerUnsafe.UpdateReceiptBreaksBooks` | internal/repo/procurement_update_delete_more.go:991-1023 | Every excluded patch of a receipt does: moved while recognized, or posted or un-posted on an order whose encumbrance is gone |
| `LedgerUnsafe.CreateReceiptBreaksBooks` | internal/repo/procurement_more.go:293-377 | Every excluded posting on creation does |
| `LedgerUnsafe.DeleteReceiptBreaksBooks` | internal/repo/procurement_update_delete_more.go:1085-1126 | Every excluded deletion of a recognized receipt does |
| `LedgerUnsafe.FullLapseBreaksBooks` | internal/repo/budget_period.go:47-53 | A lapse of a budget with anything committed or reserved does |
| `LedgerWitness.EditedReservationUpsets` | internal/repo/procurement_update_delete.go:202-216 | A run from empty tables that keeps the books until the total of a live reservation is edited |
| `LedgerWitness.SecondApprovalUpsets` | internal/repo/requisition_outcome.go:48-80 | The same for approving again after liquidation and rejection |
| `LedgerWitness.RebudgetedOrderUpsets` | internal/repo/procurement_update_delete_more.go:782-784 | The same for re-budgeting an encumbered order |
| `LedgerWitness.MovedReceiptUpsets` | internal/repo/procurement_update_delete_more.go:991-1003 | The same for pointing a recognized receipt at another order |
| `LedgerWitness.LatePostingUpsets` | internal/repo/procurement_update_delete_more.go:796-803 | The same for posting on an order cancelled earlier |
| `LedgerQuantities.ReplacedLinesIff` | internal/repo/procurement_update_delete_more.go:720-745 | An order edit keeps received quantities equal to what the receipts delivered exactly when no replaced item has been delivered |
| `LedgerQuantities.WithdrawIsExact` | internal/repo/requisition_outcome.go:375-386 | The floor on received quantities never takes effect |
| `LedgerQuantities.GatesHeldAlways` | internal/repo/procurement_update_delete_more.go:1012-1023 | A recognized receipt is Posted, and released by QC if quality-critical, however flag, status, QC status and posting are patched |
| `LedgerReceipts.UnrecognizeUndoesRecognize` | internal/repo/requisition_outcome.go:262-350 | On the books, reversing a recognition restores every table but the order's status |
| `LedgerReceipts.UnpostUndoesPost` | internal/repo/procurement_update_delete_more.go:946-1083 | Posting a draft receipt and patching it back to its status restores every table but the order's status |
| `LedgerReceipts.MovementRestatesOrder` | internal/repo/requisition_outcome.go:392-421 | After a posting or reversal that moved money the order is Received, Partially Received or Approved exactly as what its receipts delivered says, unless it is in an excluded state |
| `LedgerService.Ledger.CreateBudget` | internal/repo/procurement_more.go:188-229 | Inserts a budget with nothing used |
| `LedgerService.Ledger.UpdateBudget` | internal/repo/procurement_update_delete_more.go:160-171 | New allocation and period with the remainder recomputed, or a refusal that changes nothing |
| `LedgerService.Ledger.DeleteBudget` | internal/repo/procurement_update_delete_more.go:199-226 | Deletes a budget no document names, or fails with no effect |
| `LedgerService.Ledger.CloseBudgetPeriod` | internal/repo/budget_period.go:26-95 | The whole new state of a lapse or carry close and the set of budgets it closed |
| `LedgerService.Ledger.CreateRequisition` | internal/repo/procurement.go:82-144 | The new row and no budget effect |
| `LedgerService.Ledger.UpdateRequisition` | internal/repo/procurement_update_delete.go:152-286 | The unguarded edit of total, budget and status |
| `LedgerService.Ledger.ApplyBudgetCommitment` | internal/repo/requisition_outcome.go:43-102 | Step-by-step reserve or release equals the specification, both outcomes |
| `LedgerService.Ledger.SettleRequisition` | internal/repo/requisition_desk_chain.go:597-612 | The outcome of either approval path as one transaction, rolled back on failure |
| `LedgerService.Ledger.DeleteRequisition` | internal/repo/procurement_update_delete.go:288-342 | Release and delete in one transaction, or no effect |
| `LedgerService.Ledger.ApplyPOEncumbrance` | internal/repo/requisition_outcome.go:130-189 | Liquidation, hard check and commitment |
| `LedgerService.Ledger.ReleasePOEncumbrance` | internal/repo/requisition_outcome.go:195-209 | The un-received part goes back to the budget |
| `LedgerService.Ledger.CreatePurchaseOrder` | internal/repo/procurement.go:147-249 | Line validation and total in a loop, insertion, encumbrance; rolled back on any failure |
| `LedgerService.Ledger.AwardRfq` | internal/repo/rfq_quotes.go:105-226 | The order an award raises, with the requisition's budget by default |
| `LedgerService.Ledger.UpdatePurchaseOrder` | internal/repo/procurement_update_delete_more.go:648-880 | The whole edit with the encumbrance kept in step, or no effect |
| `LedgerService.Ledger.SyncEncumbrance` | internal/repo/procurement_update_delete_more.go:785-828 | Release on reject or cancel, signed change on a new total with the ceiling check on increases |
| `LedgerService.Ledger.DeletePurchaseOrder` | internal/repo/procurement_update_delete_more.go:882-936 | Release and delete in one transaction |
| `LedgerService.Ledger.ApplyReceivedQty` | internal/repo/requisition_outcome.go:375-386 | The loop over lines, up or down, against the specification |
| `LedgerService.Ledger.RecognizePOSpendOnReceipt` | internal/repo/requisition_outcome.go:255-369 | Posting and reversal, each only when the flag says it is due |
| `LedgerService.Ledger.CreateGrn` | internal/repo/procurement_more.go:293-377 | QC hold, receivable check, insertion and recognition |
| `LedgerService.Ledger.UpdateGrn` | internal/repo/procurement_update_delete_more.go:946-1083 | The patch with the QC hold judged on the row as it would stand |
| `LedgerService.Ledger.DeleteGrn` | internal/repo/procurement_update_delete_more.go:1085-1126 | Reversal first, then deletion |
| `LedgerService.TotalOf` | internal/repo/procurement.go:155-166 | The order total is the sum of qty times price, and any invalid line is refused |
| `LedgerService.RestatedStatus` | internal/repo/requisition_outcome.go:392-421 | The status an order's lines call for |
| `LedgerService.DidKeepsBooks` | internal/repo/requisition_outcome.go:43-369 | A writer of the class that did its transaction, or rolled it back, left the books balanced exactly when it was safe |
| `LedgerRuns.CoveredStep` | internal/repo/requisition_outcome.go:262-350 | A clean transaction, lapse closes and lowered allocations included, keeps every balance at most its sum and every budget's spend at least what the orders encumbering it recognized |
| `LedgerRuns.CoveredRun` | internal/repo/requisition_outcome.go:255-369 | The same over whole runs of clean transactions, with lapses anywhere |
| `LedgerRuns.ReversalsExactAfterRun` | internal/repo/requisition_outcome.go:262-292 | At the end of any such run, lapses included, un-posting or deleting a recognized receipt subtracts exactly what it added: no floor takes effect |
| `LedgerRuns.FloorsIdleStep` | internal/repo/requisition_outcome.go:277-367 | On the books, with a clean transaction, the arithmetic with every floor at zero and plain subtraction give the same tables |
| `LedgerRuns.FloorsIdleRun` | internal/repo/requisition_outcome.go:277-367 | Over a whole run of clean transactions without a lapse, whatever becomes of the allocations, both arithmetics end in the same tables, with the books balanced, spend covering and quantities matching |
| `LedgerRuns.NegativeAllocationIsPastItsCeiling` | internal/repo/procurement_more.go:188-229 | An allocation of -5 is accepted and is past its ceiling at once |
| `LedgerRuns.UnrecognizeIsExact` | internal/repo/requisition_outcome.go:262-292 | A reversal meets no floor when documents are well formed, spend covers and quantities match; the balances may have lapsed |
| `LedgerRuns.QuantitiesRun` | internal/repo/requisition_outcome.go:375-421 | Over any run, unsafe transactions included, that replaces no delivered lines and moves no receipt that took money, each order line's received quantity is what the recognized receipts of positive amount delivered of its item |
| `LedgerReceipts.PostingsRecognizeMin` | internal/repo/requisition_outcome.go:294-325 | Over any run in which receipts of positive value are posted to an order, on creation or by patch, and everything else leaves its total and recognized spend alone, they recognize in all min(what was open, sum of their values), and its budget's spend takes up just that |
| `LedgerReceipts.PostingsOrderFree` | internal/repo/requisition_outcome.go:294-325 | Two such runs whose posted values are the same in any order end with the same money |
| `LedgerQuantities.QuantitiesStep` | internal/repo/requisition_outcome.go:375-421 | One transaction of such a run |
| `LedgerWitness.MovedReservationUpsets` | internal/repo/procurement_update_delete.go:202-216 | A run from empty tables that keeps the books until a live reservation is moved to another budget |
| `LedgerWitness.LateReversalUpsets` | internal/repo/procurement_update_delete_more.go:796-803 | The same for un-posting a receipt after its order was cancelled |
| `OutboxTheorems.ProtocolHolds` | internal/outbox/outbox.go:68-117 | After any run with any publishers, crashes and lost marks: a row marked dispatched had a successful dispatch; sends never exceed `attempts`, which counts its claims; each claim is the hold time after the one before, unless a failure recorded between them put the row off by less, which takes an attempt past the 33rd; it is due within five minutes of its last enqueue, claim or failure |
| `OutboxTheorems.ClaimsWithinHoldAreDisjoint` | internal/outbox/outbox.go:68-99 | Two claims by any publishers less than the hold time apart share no row, whatever its attempts, unless a failure recorded in between put it off by less than the hold time |
| `OutboxTheorems.PunctualClaimsAreDisjoint` | internal/outbox/outbox.go:68-117 | That cannot happen while the failures recorded are of attempts to the 33rd or eight later ones |
| `OutboxTheorems.UnfailedClaimsAreDisjoint` | internal/outbox/outbox.go:68-117 | Nor when none is recorded, however many crashes and lost marks there are |
| `OutboxTheorems.FailureKeepsHoldIff` | internal/outbox/outbox.go:110-117 | A recorded failure postpones its row by the hold time exactly for attempt counts to 33 and eight later ones |
| `OutboxTheorems.ThirtyFourthFailureIsReclaimedAtOnce` | internal/outbox/outbox.go:206-236 | A run from an empty table in which the 34th refusal makes the row due at that moment and the next claim is no time after the one before |
| `LedgerRuns.CeilingIffAfforded` | internal/repo/procurement_update_delete_more.go:785-828 | For any transaction, unsafe ones and lapses included, with `committed + spent` within every allocation before: it is within every one afterwards exactly when the transaction creates no budget below zero, lowers none below its use, posts no more than is committed and left, and reverses no more than was spent and is left; all four read from the rows |
| `LedgerRuns.CeilingThroughoutIff` | internal/repo/requisition_outcome.go:163-189 | The same over any run at all, without any accumulated tolerance: the ceiling holds all along exactly when no transaction is one of those four |
| `LedgerRuns.CleanNeverOverspends` | internal/repo/requisition_outcome.go:294-350 | With balanced books, a clean posting or reversal is never one of the last two |
| `LedgerRuns.CeilingRun` | internal/repo/procurement_update_delete_more.go:804-826 | However many orders, increases, receipts and reversals are made, a clean run without a lapse that sets no allocation below zero or below its use keeps books, cover and ceiling all along |
| `LedgerWitness.UnencumberedPostingOverruns` | internal/repo/procurement_update_delete_more.go:785-828 | A run from empty tables, every transaction of it safe: an order of 200 raised without a budget is given one of 100 and received, and 200 of 100 are spent |
| `LedgerWitness.UnencumberedPostingUpsets` | internal/repo/requisition_outcome.go:313-321 | A run that keeps the books until a receipt is posted on an order that never encumbered its budget |
| `LedgerSpend.ChargesStep` | internal/repo/requisition_outcome.go:294-350 | One transaction, whatever it is, keeps each order's recognized spend equal to its recognized receipts and each budget's spend at least what all orders charged to it recognized, cancelled and never-encumbered ones included, if no receipt that took money changes order and no order that recognized money changes budget |
| `LedgerSpend.ChargesRun` | internal/repo/requisition_outcome.go:255-369 | The same over any run of such transactions |
| `LedgerSpend.ReversalsExactAnywhere` | internal/repo/requisition_outcome.go:262-292 | At the end of any such run that replaces no delivered lines, un-posting or deleting a receipt subtracts exactly what it added, whatever has become of its order and budget: no floor takes effect |
| `ApprovalTheorems.RequiredExactly` | internal/repo/requisition_approval.go:78-86 | A tier is required exactly when it is in the matrix and the total exceeds its band |
| `ApprovalTheorems.LowestTiersIffRising` | internal/repo/requisition_approval.go:78-86 | The required tiers are the lowest ones for every amount exactly when the bands rise with the tier |
| `ApprovalTheorems.NextTierIsLowestUnsigned` | internal/repo/requisition_approval.go:106-121 | The next tier is the first required one without a signature, none exactly when all have signed |
| `ApprovalTheorems.NextTierExtendsPrefix` | internal/repo/requisition_approval.go:264-307 | With a prefix of the matrix signed, the next signature extends the prefix by one |
| `ApprovalTheorems.SignersAlwaysFair` | internal/repo/requisition_approval.go:219-321 | Over any run, with any matrix and however it is edited between steps: the signers of a requisition differ and none is its requester |
| `ApprovalTheorems.SignaturesAlwaysProper` | internal/repo/requisition_approval.go:219-321 | Under any run of approvals, rejections, edits of the total and other traffic, with bands that rise: signed tiers are a prefix of the matrix, signers differ, none is the requester |
| `ApprovalTheorems.ApprovedIffAllSigned` | internal/repo/requisition_approval.go:264-307 | Whatever the matrix, a tier approval leaves the requisition Approved exactly when every tier its current total reaches has signed |
| `ApprovalTheorems.ApprovalCounts` | internal/repo/requisition_approval.go:264-307 | Each successful approval takes one off the steps left; the last one approves |
| `ApprovalTheorems.ApprovedAfterStepsLeft` | internal/repo/requisition_approval.go:264-307 | Over any run of approvals, refused ones included, and other traffic that leaves the requisition's total and signatures alone: it is approved exactly when its successful approvals are as many as the steps left |
| `ApprovalTheorems.FreshStepsLeft` | internal/repo/requisition_approval.go:264-307 | For a fresh requisition that is max(1, number of required tiers) |
| `ApprovalTheorems.ApproveReports` | internal/repo/requisition_approval.go:106-121 | An approval that leaves tiers unsigned reports the first of them |
| `ApprovalTheorems.ReportedTierSignsNext` | internal/repo/requisition_approval.go:106-121 | The NextTier reported is the one the next successful approval signs |
| `ApprovalTheorems.DeskStepIsLedgerStep` | internal/repo/requisition_approval.go:125-155 | Each tier action is one ledger transaction that sets an outcome or edits a requisition |
| `ApprovalTheorems.DeskRunIsLedgerRun` | internal/repo/requisition_approval.go:219-400 | Every run with tiered approval is a run of the ledger, so its theorems apply |
| `ApprovalService.RequiredTiers` | internal/repo/requisition_approval.go:78-86 | The filtering loop |
| `ApprovalService.AllRequiredApproved` | internal/repo/requisition_approval.go:97-104 | True exactly when every required tier number is among the signed |
| `ApprovalService.Progressed` | internal/repo/requisition_approval.go:106-121 | The progress report |
| `ApprovalService.RejectingTier` | internal/repo/requisition_approval.go:362-373 | The loop that picks the tier a rejection is recorded under and whether the actor may reject |
| `ApprovalService.ApprovalDesk.SettleOrRestore` | internal/repo/requisition_approval.go:291-301 | The outcome reaches requisition and budget, or the signatures are rolled back with them |
| `ApprovalService.ApprovalDesk.ActorAlreadyApproved` | internal/repo/requisition_approval.go:176-189 | Whether the actor has an approving signature on this requisition |
| `ApprovalService.ApprovalDesk.ApproveRequisitionTier` | internal/repo/requisition_approval.go:219-321 | The whole approval: refusals in order, one signature, settlement when complete, rollback on failure |
| `ApprovalService.ApprovalDesk.RejectRequisitionTiered` | internal/repo/requisition_approval.go:328-400 | The whole rejection, with the tier it is recorded under |
| `OutboxTheorems.RunsStaySound` | internal/outbox/outbox.go:68-225 | The invariant behind it, over any run from any state that meets it |
| `OutboxTheorems.DispatchedNeverClaimedAgain` | internal/outbox/outbox.go:72-117 | Once marked, a row stays marked and is never claimed again |
| `OutboxTheorems.StaleRowIsClaimable` | internal/outbox/outbox.go:72-81 | Five minutes after its last claim or failure an unsent row can be claimed by any idle publisher |
| `OutboxService.SameBatch` | internal/outbox/outbox.go:72-79 | The batch is determined by table, clock, limit and locked rows |
| `OutboxService.OldestDueIsTaken` | internal/outbox/outbox.go:72-79 | The oldest due unlocked row is in every batch |
| `OutboxService.PickDue` | internal/outbox/outbox.go:72-79 | The first `limit` due unlocked rows by id: increasing, all due, and nothing due passed over for a later one |
| `OutboxService.Store.ClaimBatch` | internal/outbox/outbox.go:68-99 | Reserves that batch: one attempt more and the hold time from now; a limit of zero or less means 32 |
| `OutboxService.Store.MarkDispatched` | internal/outbox/outbox.go:102-107 | Sets the dispatch time of that row only |
| `OutboxService.Store.MarkFailed` | internal/outbox/outbox.go:110-117 | Sets when that row is due again only, in whole milliseconds, dispatched or not |
| `OutboxService.Store.DrainOnce` | internal/outbox/outbox.go:206-225 | One drain against its specification, for any replies, waits and lost marks |
| `OutboxService.DrainOnceIsRun` | internal/outbox/outbox.go:206-225 | What `DrainOnce` promises is the table the protocol reaches by the claim of that batch and the steps of its answers |
| `OutboxService.DrainIsRun` | internal/outbox/outbox.go:206-225 | Such a drain is a run of the protocol, so the theorems on runs hold of it |
| `Backoff.BackoffIsCappedPower` | internal/outbox/outbox.go:227-236 | For 1 to 33 attempts the delay is min(2^n s, max) |
| `Backoff.BackoffMonotone` | internal/outbox/outbox.go:227-236 | and monotone |
| `Backoff.CappedPowerIff` | internal/outbox/outbox.go:227-236 | For 1 to 62 attempts it is min(2^n s, 5 min) exactly for counts to 33 and for 37, 41, 42, 45, 47, 50, 51, 53 |
| `Backoff.CappedOrNoDelay` | internal/outbox/outbox.go:227-236 | Past 33 the wrapped delay is the whole cap or not positive |
| `Backoff.IntervalStaysInBand` | internal/outbox/outbox.go:158-166 | Over any drain results the poll interval stays between the tick and 8 s |
| `Backoff.IdleDoubles` | internal/outbox/outbox.go:158-202 | After work, k idle or failed drains give min(tick times 2^k, 8 s) |
| `Backoff.RunInterval` | internal/outbox/outbox.go:168-204 | The publisher's loop over drain results computes that interval |
| `Splitter.ChunksRestoreInput` | internal/migrate/migrate.go:166-191 | The chunks joined are the input |
| `Splitter.CutsAreExact` | internal/migrate/migrate.go:157-191 | The text is cut after a position exactly when ";" and a blank line start there outside every dollar-quoted block, blocks being defined on the text by first occurrences of tags |
| `Splitter.ResplittingChangesNothing` | internal/migrate/migrate.go:166-191 | Splitting any chunk gives that chunk alone |
| `Splitter.PlainSplitRestored` | internal/migrate/migrate.go:157-165 | Without a dollar sign the chunks are those of the plain split with the separators put back |
| `Splitter.SplitStatements` | internal/migrate/migrate.go:166-191 | The scanner with its mutable position, start and tag produces exactly those chunks |
| `Splitter.DollarTagAt` | internal/migrate/migrate.go:195-209 | The tag that opens the text, if one does |
| `Splitter.TagLengthExact` | internal/migrate/migrate.go:195-209 | A tag of n bytes is found exactly when one opens there: a dollar, letters, digits or underscores, a dollar |
| `Splitter.NoneBeforeFirst` | internal/migrate/migrate.go:170-177 | A block ends at the first recurrence of its tag |
| `Splitter.ClearIffReached` | internal/migrate/migrate.go:169-189 | A byte other than a dollar is outside every block exactly when left-to-right reading comes to it |
| `MigrationRunner.UpgradePathDoesNotMatter` | internal/migrate/migrate.go:34-134 | Any series of growing file lists, from any start, ends in the database and version table of one run of the longest list that works |
| `MigrationRunner.FinalListDecides` | internal/migrate/migrate.go:34-134 | If the final list works, the series ends as one run of it |
| `MigrationRunner.UpgradeInTwoSteps` | internal/migrate/migrate.go:54-76 | Running a list after a prefix of it, whether that succeeded or not, has the same outcome as running it alone |
| `MigrationRunner.RepeatChangesNothing` | internal/migrate/migrate.go:54-65 | A repeat run changes nothing |
| `MigrationRunner.InsertedFileIsSkipped` | internal/migrate/migrate.go:85-91 | A file inserted among those already run is never run, and the last one runs again |
| `MigrationRunner.ExecSQL` | internal/migrate/migrate.go:136-155 | Line ends normalised, split, trimmed, blanks skipped, stopped at the first failure |
| `MigrationRunner.Database.Up` | internal/migrate/migrate.go:34-83 | The loop over positional versions in one transaction: all of it, or database and version table as before |
| `VendorQuality.AdviceIsLatest` | internal/repo/vendor_quality.go:84-105 | After any run the stored advice is no older than any event about the vendor and is one of them, or what was there, which is later than all |
| `VendorQuality.LatestEventWins` | internal/repo/vendor_quality.go:84-105 | The latest event about a vendor is stored, unless it already held a later one, whatever the order, repeats and decisions between |
| `VendorQuality.AdviceConverges` | internal/repo/vendor_quality.go:84-105 | Two deliveries of the same events with distinct times end with the same advice, whatever the vendor held before |
| `VendorQuality.OnlyDecisionsDecide` | internal/repo/vendor_quality.go:84-90 | Leaving out every event changes no decision column |
| `VendorQuality.OnlyEventsAdvise` | internal/repo/vendor_quality.go:31-35 | Leaving out every decision changes no advice |
| `VendorQuality.SuspendedByLastDecision` | internal/repo/vendor_quality.go:107-121 | A supplier is suspended exactly when the last valid decision about it says so |
| `VendorQuality.VendorTable.ApplyQCRecommendation` | internal/repo/vendor_quality.go:91-105 | Writes the vendors named that hold no later advice; reports whether it wrote any |
| `VendorQuality.VendorTable.SetVendorQualityStatus` | internal/repo/vendor_quality.go:36-73 | The decision columns only; refuses an unknown status, a missing reason, an unknown vendor |
| `LedgerRules.ApprovalReserves` | internal/repo/requisition_outcome.go:43-102 | An unencumbered requisition of positive total on a known budget is approved if and only if its total is at most `allotted - preCommitted - committed - spent`; then exactly that much is reserved |
| `LedgerRules.ApprovalLeavesRoom` | internal/repo/requisition_outcome.go:67-72 | Over any run from sound rows, an accepted approval of such a requisition lowers `remaining` by its total and never below zero |
| `LedgerRules.ApprovalWithoutReservation` | internal/repo/requisition_outcome.go:48-80 | Any other approval is never refused for money and writes the status alone |
| `LedgerRules.RejectionReleases` | internal/repo/requisition_outcome.go:81-98 | A rejection of a known requisition is never refused; it clears the flag and gives back what is still reserved |
| `LedgerRules.RequisitionUpdated` | internal/repo/procurement_update_delete.go:152-286 | Accepted exactly when the row and the named budget exist and no decision status is set; overwrites three columns |
| `LedgerRules.RequisitionDeleted` | internal/repo/procurement_update_delete.go:288-342 | Accepted exactly when the row exists and no order names it; what was still reserved goes back |
| `LedgerRules.BudgetCreated` | internal/repo/procurement_more.go:188-229 | A new budget has nothing in any stage and its whole allocation left |
| `LedgerRules.BudgetUpdated` | internal/repo/procurement_update_delete_more.go:160-171 | Accepted exactly when the row exists; allocation and period as asked, the three stages as they were, the remainder recomputed |
| `LedgerRules.RequisitionCreated` | internal/repo/procurement.go:82-144 | Accepted exactly when the id is unused and the budget exists; reserves nothing |
| `LedgerRules.BudgetDeleted` | internal/repo/procurement_update_delete_more.go:199-226 | Accepted exactly when the row exists and no document names it |
| `LedgerRules.PeriodClosed` | internal/repo/budget_period.go:26-95 | Which budgets a close takes, and each row afterwards, by policy |
| `LedgerRules.RaisingAccepted` | internal/repo/procurement.go:147-249 | Raising an order is accepted exactly when its id is unused, the documents exist and `committed + total + spent <= allotted` if it charges a budget |
| `LedgerRules.OrderCreated` | internal/repo/procurement.go:147-249 | The exact acceptance of an order from lines, and every row it writes: approved at once if and only if a positive threshold exceeds the total, the requisition ordered and liquidated, `committed` raised by the total |
| `LedgerRules.OrderAwarded` | internal/repo/rfq_quotes.go:105-226 | The same for an award, charged to the budget named or else to its requisition's |
| `LedgerRules.ValueAdds` | internal/repo/procurement.go:155-166 | The value of two runs of lines is the sum of theirs, and of one line qty times price |
| `LedgerOrderRules.OrderUpdateAccepted` | internal/repo/procurement_update_delete_more.go:648-880 | An order edit is accepted exactly when the row, budget and requisition exist, the lines are valid, the creator does not approve, and a new total of a live encumbrance covers what was received and fits |
| `LedgerOrderRules.OrderUpdated` | internal/repo/procurement_update_delete_more.go:648-880 | The row and the one budget an accepted edit writes |
| `LedgerOrderRules.OrderDeleted` | internal/repo/procurement_update_delete_more.go:882-936 | A known order can always be deleted; the un-received part of its encumbrance goes back |
| `LedgerOrderRules.ReceiptCreateAccepted` | internal/repo/procurement_more.go:293-377 | A receipt is accepted exactly when its id is unused, its lines are valid, QC does not hold it, and its order, if known, is none of draft, pending, rejected and cancelled |
| `LedgerOrderRules.ReceiptCreated` | internal/repo/procurement_more.go:293-377 | A posted receipt moves its value, or all that is open if it has none or more, from committed to spent, its quantities to the lines, and the order's status to what they say |
| `LedgerOrderRules.ReceiptUpdateAccepted` | internal/repo/procurement_update_delete_more.go:946-1083 | The exact acceptance of a patch, the QC hold judged on the row as patched |
| `LedgerOrderRules.ReceiptUpdated` | internal/repo/procurement_update_delete_more.go:946-1083 | When a patch posts, when it reverses, and every row it then writes |
| `LedgerOrderRules.ReceiptDeleteAccepted` | internal/repo/procurement_update_delete_more.go:1085-1126 | A known receipt can always be deleted |
| `LedgerOrderRules.ReceiptDeleted` | internal/repo/procurement_update_delete_more.go:1085-1126 | A recognized receipt is reversed and then removed; any other is removed alone |
| `LedgerOrderRules.RaisedOnHold` | internal/repo/procurement.go:47-52 | An order at or over the threshold, or without a positive one, starts on hold |
| `LedgerOrderRules.OffHoldByAnEdit` | internal/repo/procurement_update_delete_more.go:648-880 | Over any run, an order that leaves draft, pending, rejected or cancelled did so by an edit that named the new status, and an edit that approved it was not by its creator; goods movement never does it |
| `LedgerOrderRules.CreatorReleasesIff` | internal/repo/procurement_update_delete_more.go:710-718 | The creator alone takes an order off hold exactly by naming ordered, partially received, received or closed |
| `LedgerWitness.CreatorClearsAlone` | internal/repo/procurement_update_delete_more.go:710-718 | A run from empty tables in which only the creator acts and the order, raised pending approval, ends approved |
| `LedgerRefusals.RefusalsSayWhy` | internal/repo/requisition_outcome.go:43-369 | Every refusal is forbidden, not found or a conflict in exactly the listed cases, and an invalid argument in all others |
| `ApprovalRules.ApprovalAccepted` | internal/repo/requisition_approval.go:219-321 | An approval is accepted if and only if the requisition is known and undecided, the actor neither asked for it nor signed it, holds the permission of the first reached band without a signature, and, when nothing is then missing, the budget has room |
| `ApprovalRules.ApprovalWrites` | internal/repo/requisition_approval.go:264-321 | The one signature an accepted approval adds, with the permission held, and the requisition settled or pending |
| `ApprovalRules.ApprovalRefused` | internal/repo/requisition_approval.go:219-321 | Which error a refused approval reports |
| `ApprovalRules.EverySignatureWasGranted` | internal/repo/requisition_approval.go:272-290 | Over any run, with the matrix changing at any step: every approving signature was added by an actor who then held the permission of a band with that number whose start the total exceeded |
| `ApprovalRules.RejectionAccepted` | internal/repo/requisition_approval.go:328-400 | A rejection is accepted if and only if the requisition is known and undecided and the actor asked for it, holds the permission of a reached band, or no band is reached |
| `ApprovalRules.RejectionWrites` | internal/repo/requisition_approval.go:328-400 | The tier a rejection is recorded under and the release it makes |
| `ApprovalRules.RejectionRefused` | internal/repo/requisition_approval.go:328-400 | Which error a refused rejection reports |
| `ApprovalRules.ApprovalReported` | internal/repo/requisition_approval.go:106-121 | The report after an approval: the numbers of the bands reached, the tiers then signed, and the tier and permission of the band that now waits, none when it is complete |
| `ApprovalRules.RejectionReported` | internal/repo/requisition_approval.go:106-121 | The same after a rejection, never complete |
| `ApprovalRules.OtherTrafficWrites` | migrations/027_uuid_entity_ids.sql:166 | Other transactions leave every signature alone; a deleted requisition takes its own along |
| `SplitterRules.BlocksAreExact` | internal/migrate/migrate.go:166-189 | The dollar-quoted blocks are exactly the spans that open with a tag, end with its next occurrence or the end of the text, and start inside no other block |
| `SplitterRules.CutsAreWritten` | internal/migrate/migrate.go:186-189 | The text is cut behind exactly those semicolons that two line feeds follow and that stand in no block |
| `MigrationRules.UpgradeFollowsTheStatements` | internal/migrate/migrate.go:34-83 | An upgrade succeeds if and only if every new file is embedded and a chain of databases exists along which the engine accepts each of their non-blank trimmed statements in order; it ends in the last of the chain with the files recorded, and otherwise nothing changes |
| `MigrationRules.BodyLeads` | internal/migrate/migrate.go:136-155 | A file's text executes exactly when such a chain exists for its statements, and ends where the chain ends |
| `MigrationRules.FailureNamesTheFirst` | internal/migrate/migrate.go:58-75 | The file an upgrade fails on is the first new one that is missing or has no such chain |
| `MigrationRules.TrimmedOnce` | internal/migrate/migrate.go:136-155 | There is one such text, so the rule determines what trimming returns |
| `MigrationRules.TrimTrims` | internal/migrate/migrate.go:136-155 | Trimming leaves the text between leading and trailing white space |
| `MigrationRules.LineEndsBecomeUnix` | internal/migrate/migrate.go:136-140 | Every CR LF becomes LF, wherever it stands |
| `OutboxRules.ClaimWrites` | internal/outbox/outbox.go:66-99 | Exactly which claims are possible; a claim counts an attempt and holds its rows for one second |
| `OutboxRules.EnqueueWrites` | internal/outbox/outbox.go:58-64 | A new row has no attempts and is due at once |
| `OutboxRules.DispatchWrites` | internal/outbox/outbox.go:206-225 | Dispatching touches no row; the publisher keeps how the broker answered |
| `OutboxRules.SuccessWrites` | internal/outbox/outbox.go:101-107 | A delivered row is marked dispatched at that moment |
| `OutboxRules.FailureWrites` | internal/outbox/outbox.go:206-236 | A refused row waits min(2^n, 300) seconds after its n-th attempt, for n up to 33 |
| `OutboxRules.WholeMilliseconds` | internal/outbox/outbox.go:109-117 | A duration reaches the database as its whole milliseconds, cut toward zero |
| `Backoff.NoCountIsFirst` | internal/outbox/outbox.go:227-236 | A count below one is taken for the first attempt |
| `LedgerSpend.EmptyTablesCharge` | internal/repo/requisition_outcome.go:43-369 | An empty database satisfies what the runs of charges start from |
| `VendorQuality.EventWrites` | internal/repo/vendor_quality.go:91-105 | Which vendors an event names and which of them take its advice; every other column stays |
| `VendorQuality.DecisionWrites` | internal/repo/vendor_quality.go:36-73 | The four columns a decision writes, and which error any other decision reports |

## Left out

- The desk-chain engine: only its outcome, approved or rejected, reaches the ledger.
- RFQs and quotes: an award is modelled by the order it raises; choosing the quote, the RFQ's own status and the links from RFQs to requisitions are not.
- LedgerService.Ledger.CreatePurchaseOrder: does not refuse a suspended supplier, because orders in the ledger name no vendor; the vendors' count of open orders is absent too. `VendorQuality.SuspendedByLastDecision` says when a supplier is suspended.
- LedgerService.Ledger.UpdatePurchaseOrder: does not refuse a move to a suspended supplier, for the same reason.
- LedgerService.Ledger.DeleteRequisition: does not refuse a requisition that an RFQ refers to, because RFQs are not modelled.
- LedgerService.Ledger.DeleteGrn: does not refuse a receipt that an invoice refers to, because invoices are not modelled.
- Invoices: matching and the variance gate.
- Outbox events and audit rows written inside the ledger's transactions, document numbers, titles, dates and notes.
- Kafka consumers, imports, handlers, auth, caches, notifications: input and output.
- Fractional quantities and amounts below a minor unit: rounding in floating point is not modelled.
- Case and spacing of status text: an enumeration, in which a posted status in another case is its own value, because the QC hold ignores case and recognition does not.
- Locks held between statements and deadlocks: each transaction is one atomic step. Two statements of one outbox claim are one step as well, and `NOW()` is the moment of the step.
- The order in which a claim returns its rows: `OutboxService.Store.ClaimBatch` returns them by id, while the protocol in `Outbox` allows any order.
- What a dispatch delivers beyond one message per call: retries inside the Kafka client are not counted, and a publisher without a broker reports success without sending.
- MigrationRunner.ExecSQL: trims the six ASCII kinds of white space around a statement, not the other Unicode ones.
- A connection or commit that fails in `MigrationRunner.Database.Up`: it leaves everything unchanged as any failure does.
- Changes to which business id a vendor has, and the parsing of scorecard events.
