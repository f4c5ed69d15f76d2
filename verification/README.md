# Spare-part inventory and maintenance: verified model

This project models the core of a maintenance system for one site and proves properties of it in
Dafny 4.11.

* **Stock, reservations and shortages.** Stock on hand per part, a table of reservation rows
  (ACTIVE, RELEASED, CANCELLED; linked to a part line or *legacy*), part lines with requested,
  approved, allocated and issued quantities, shortage reports with a manager's decision, an
  append-only movement log and the tool pool.
* **Cost ledger.** A journal posted by delta, a cache per work order, and half-even rounding; the
  weighted average cost of a part.
* **Work orders.** Lifecycle, blockers with their event history, and the derived operational status.
* **Due dates** of preventive maintenance and the **asset tree**.

## How it is laid out

| file | module | content |
|---|---|---|
| Basics.dfy, Records.dfy | Basics, Records | shared names; the records of the inventory database |
| Reservations.dfy | Reservations | the reservation table: sums, cancelling a class of rows, first-in first-out drawdown |
| StockOperations.dfy | StockOperations | each inventory service as a function on the database; steps and runs |
| StockRoom.dfy | StockRooms | the services as methods that update fields in place, with the source's loops and rollbacks |
| ReservationLaws.dfy, ReservationRuns.dfy | | what a step and a run keep about reservations |
| AllocationLaws.dfy | | priority reallocation |
| ShortageLaws.dfy | | lines, reports and decisions |
| IssueLaws.dfy, MovementLaws.dfy | | issued quantities, the movement chain, tool numbering |
| StockOutcomes.dfy, BoardOutcomes.dfy, LedgerOutcomes.dfy | | who is refused by each service, and which fields it leaves how, stated on the tables alone |
| PartialIssueLaws.dfy | | stranded reservations, and lines issued beyond their approval |
| Money.dfy, CostLedger.dfy, CostService.dfy, CostLaws.dfy, AverageCost.dfy | | costs |
| WorkOrders.dfy, WorkOrderDesk.dfy, WorkOrderLaws.dfy | | work orders and blockers |
| UnblockLaws.dfy | | how lines and reports let go of the blockers that wait for them; inventory and board run together |
| DueDates.dfy, AssetTree.dfy | | calendar arithmetic; upward walk and downward recursion |

The functions of StockOperations, WorkOrders and CostLedger are themselves pinned by the outcome
modules: what is accepted, and every field that changes, without those functions' own helpers.

A service that changes state appears twice on purpose: as a function on a database value, about
which whole runs can be reasoned, and as a method of a class that changes the fields step by step
and is proved to reach the state the function gives. A drawdown is the exception that shows the
pattern best: the function is a closed formula per row, the method is the loop over the rows.

Conventions. Quantities are integers in thousandths, unit costs in ten-thousandths, money in
hundredths. A table is a sequence indexed by primary key and only appended to, so index order is
creation order. An operation yields `None` where the service raises or declines; `Step` then leaves
the state alone, as `transaction.atomic` does, and a savepoint whose exception the caller swallows
is `Or(outcome, before)`. Violating a unique constraint is such a failure. `Line.allotted` is
`allocated_qty`; the report statuses `Decided` and `Refused` are the source's APPROVED and REJECTED;
the blocker status `Withdrawn` is CANCELLED.

Theorems about whole runs come as equivalences where they can: a predicate on states holds in
*every* state of a run if and only if every operation passed a check its caller could make.

## Where the code decides against its own comments

* A line with an ACTIVE reservation cannot be granted more: `allocate_one` hits the unique
  constraint, and reallocation passes the line over.
* A warehouse issue checks stock on hand only, so it can take what others reserved; `Fits` is the
  exact check, and `WarehouseIssueMayOverReserve` a concrete case.
* A direct issue leaves its line open with nothing allocated, so the next reallocation reserves the
  issued quantity a second time (`DirectIssueWantsAgain`).
* A partial warehouse issue makes its line ISSUED, so nothing can issue, cancel or allocate it again;
  without a report, what it did not take stays reserved for ever (`PartialIssueStrandsRest`).
* A warehouse issue is not capped by the approved quantity, and a decision may be lowered below what
  was issued; `IssuedWithinApproved` says exactly which steps exceed it.
* With negative free stock a request's shortage exceeds its quantity, because free stock is not
  clamped there (`RequestShortage`, `ShortageMayExceedRequest`).
* Lowering a decision frees legacy rows only, so a line can stay allotted more than it is approved
  for (`DownwardEditKeepsAllotted`); raising one fails while the line has an ACTIVE reservation and
  stock is free (`UpwardEditRefusedExactly`).
* Raising a shortage again resets the issued count of its pending report; `KeepsCounts` says exactly
  when that loses something.
* `transition_shortage_status` checks no quantities, and receiving a purchase order calls it
  directly (procurement/views.py:942); `FulfilledMeansIssued` says exactly which calls break the
  rule that a fulfilled report has issued its approved quantity.
* A rejecting decision sets the report's status around the transition service, so a shortage blocker
  already open for the report stays open (`EndedReportsHoldNobodyUp`, `RejectionLeavesWaiting`). The
  callers in this repository open such blockers only after an approving decision.
* The check that would keep dependent work orders paused reads a copy whose operational status
  predates the transition; with a copy that is fresh when the transition begins every transition
  releases all dependents (`FreshCopyAlwaysReleases`, `StartReleasesThoughRunning`).
* A transition is checked and logged from the caller's copy of the lifecycle; the log is a legal
  path exactly when the copies are current (`LogIsLegalPath`).
* A costed receipt onto stock that was received without a cost averages that stock in at zero
  (`AverageStaysBetween`, `FirstCostStored`).
* The cost poster describes reversal rows but posts one delta row; that is what is modelled.

## Model

| member | source | states |
|---|---|---|
| Reservations.DrawnWithin | inventory/services.py:2331-2383 | a drawdown takes exactly min(qty, what the class holds) from every class containing it |
| Reservations.DrawnApart | inventory/services.py:2396-2401 | a drawdown leaves every disjoint class of reservations with the same ACTIVE sum |
| Reservations.DrawnConserves | inventory/services.py:2361-2381 | shrinking a row and creating its released sibling neither creates nor loses quantity |
| Reservations.DrawnIsFifo | inventory/services.py:2343-2383 | if a later row gives anything every earlier row of the class is released whole; rows outside are identical; at most one sibling appears |
| Reservations.DrawnKeeps | inventory/models.py:787-798 | after a drawdown all quantities are positive, a line still has at most one ACTIVE row, and every row follows its history |
| Reservations.EndAllSums | inventory/services.py:1769-1780 | cancelling a class lowers any other class by exactly what they share and loses no quantity from the table |
| Reservations.HeldNonNegative | inventory/models.py:40-53 | the live reserved sum is never negative |
| StockRooms.StockRoom.Draw | inventory/services.py:1625-1644 | the loop that decrements the remainder and splits a row yields the closed formula row by row, and returns what the class could not cover |
| StockRooms.StockRoom.EndClass | inventory/services.py:1241-1252 | the loop over the rows ends exactly the ACTIVE rows of the class |
| StockRooms.StockRoom.Receive | inventory/services.py:68-116 | a receipt adds to stock, creating the record if missing, and logs the movement |
| StockRooms.StockRoom.Consume | inventory/services.py:359-410 | consumable use checks stock on hand only; a failed cost posting rolls the deduction back |
| StockRooms.StockRoom.IssueTools | inventory/services_tools.py:73-145 | the loop creates units numbered on from the highest number of the part, after deducting stock |
| StockRooms.StockRoom.DirectIssue | inventory/services.py:185-243 | issues min(qty, free stock) on a new approved line, or nothing; refused on a closed order or any earlier line |
| StockRooms.StockRoom.AllocateOne | inventory/services_allocation.py:87-117 | grants min(gap, free stock) and one ACTIVE row, or fails without effect when the line already has one |
| StockRooms.StockRoom.Reallocate | inventory/services_allocation.py:152-177 | the walk over the queue, each failure swallowed, reaches the state of the recursive allocation |
| StockRooms.StockRoom.Reserve | inventory/services.py:1527-1571 | reserves exactly the quantity or nothing |
| StockRooms.StockRoom.Release | inventory/services.py:1602-1660 | releases exactly the quantity from legacy rows, or undoes what it did |
| StockRooms.StockRoom.ReleaseStale | maintenance/services.py:119-160 | the sweep of a closing order reaches the state whose exact rows SweepIsExact describes |
| StockRooms.StockRoom.RequestPart | inventory/services.py:645-741 | a new pending line, with a shortage report when free stock does not cover it; the open line is returned when there is one |
| StockRooms.StockRoom.RaiseShortage | inventory/services.py:941-991 | gets or creates the pending report, refreshes its quantities and links the pending line |
| StockRooms.StockRoom.ApprovePart | inventory/services.py:1032-1110 | approves a pending line and allocates; a failed allocation leaves the approval standing |
| StockRooms.StockRoom.RejectPart | inventory/services.py:1146-1154 | only pending lines, only with a reason |
| StockRooms.StockRoom.CancelPart | inventory/services.py:1193-1267 | cancels an approved or allocated line never issued, and ends its own and its order's legacy reservations |
| StockRooms.StockRoom.EditQuantity | inventory/services.py:1428-1437 | only pending lines; the request is kept and the shortage recomputed |
| StockRooms.StockRoom.MoveReport | inventory/services.py:1713-1780 | allowed transitions only; closing also cancels reservations |
| StockRooms.StockRoom.Decide | inventory/services.py:1869-2014 | records a balanced decision on a pending report; an allocation that fails undoes the whole decision |
| StockRooms.StockRoom.EditDecision | inventory/services.py:2085-2172 | edits an unlocked decision; an allocation that fails undoes the edit, a release that falls short does not |
| StockRooms.StockRoom.MarkFulfilled | inventory/services.py:2190-2219 | only reports in fulfilment with enough issued |
| StockRooms.StockRoom.WarehouseIssue | inventory/services.py:2273-2538 | issues against stock on hand, drawing own then legacy reservations, and returns exactly min(qty, own + legacy) as released |
| StockRooms.StockRoom.NoteIssue | inventory/services.py:2496-2521 | the first issue on a line moves its report to fulfilment where that is allowed; every issue is counted |
| StockOutcomes.ReceiptIs | inventory/services.py:68-116 | a receipt changes the stock of its part, creating the record, with the movement that says so, and nothing else |
| StockOutcomes.ConsumptionIs | inventory/services.py:359-410 | accepted if and only if permitted, posted, and the quantity is positive and on hand; then exactly the stock and its movement change |
| StockOutcomes.ToolIssueIs | inventory/services_tools.py:73-145 | accepted if and only if the part is reusable and n whole units are on hand; n units are added and a thousand thousandths each leave stock |
| StockOutcomes.DirectIssueIs | inventory/services.py:185-243 | accepted if and only if the order never had a line of the part and something is unreserved; issues the lesser of the two on a new approved line |
| StockOutcomes.AllocationIs | inventory/services_allocation.py:87-117 | refused exactly when it has stock to grant to a line with a reservation; otherwise the line, its status and its one new ACTIVE row are what the grant makes them |
| StockOutcomes.ReservationIs | inventory/services.py:1527-1571 | accepted if and only if unreserved stock covers it and the line has no reservation; one ACTIVE row for exactly this part, order and line |
| StockOutcomes.LegacyReservationRaises | inventory/services.py:1555-1571 | a legacy reservation raises what its order holds of the part and no other order's |
| StockOutcomes.ReleaseTouches | inventory/services.py:1609-1644 | release changes ACTIVE legacy rows of this part and order only |
| StockOutcomes.IssueTouches | inventory/services.py:2331-2439 | a warehouse issue changes ACTIVE rows of the line, and of its order without a line, only |
| StockOutcomes.RequestIs | inventory/services.py:645-741 | who is refused; a new request is pending for the whole quantity, with a linked report that asks for the whole quantity if and only if unreserved stock does not cover it |
| StockOutcomes.RaiseIs | inventory/services.py:941-991 | the pending report, or a new one, takes the quantity and count of the newest pending line, which ends linked to a report |
| StockOutcomes.RaiseWithoutLine | inventory/services.py:941-991 | without a pending line the pending report loses its count, and without a report the call is refused |
| StockOutcomes.ApprovalIs | inventory/services.py:1032-1110 | who is refused; the approved quantity, the grant, the status and the shortage of an approved line |
| StockOutcomes.RejectionIs | inventory/services.py:1146-1154 | a pending line with a reason becomes rejected, and nothing else changes |
| StockOutcomes.CancellationAccepts | inventory/services.py:1193-1230 | exactly approved or allocated lines never issued, with a reason of fifteen characters |
| StockOutcomes.QuantityEditIs | inventory/services.py:1428-1437 | exactly pending lines and positive quantities; quantity and shortage change |
| StockOutcomes.MoveIs | inventory/services.py:1676-1726 | a report comes to each status exactly from the listed ones; the move writes the status alone, and rows only when closing |
| StockOutcomes.MarkingIs | inventory/services.py:2190-2219 | accepted if and only if in fulfilment, approved, and issued in full |
| StockOutcomes.DecisionsBalanceOverRuns | inventory/models.py:722-755 | in every state of every run the parts of each decision are not negative and add up to the request |
| StockOutcomes.DecisionAccepted | inventory/services.py:1869-1996 | accepted if and only if the report is pending and undecided, the decision balances, and no stock has to be granted to a line with a reservation |
| StockOutcomes.DecisionRecorded | inventory/services.py:1889-1921 | the decision and the status are recorded; a rejection touches no line and no row |
| StockOutcomes.DecisionAllocates | inventory/services.py:1975-2014 | an approving decision sets the line's approved quantity and reserves what it can of it; every field of the line |
| StockOutcomes.DecisionReserves | inventory/services.py:1985-1996 | on a fresh line it reserves exactly min(issue, unreserved stock) and takes nothing from stock |
| StockOutcomes.EditRecorded | inventory/services.py:2085-2129 | only before fulfilment starts; the new quantities balance and are recorded under the old kind |
| StockOutcomes.EditAccepted | inventory/services.py:2085-2150 | exactly which edits are accepted |
| StockOutcomes.EditAllocates | inventory/services.py:2131-2170 | a rise approves the line and reserves what it can, a drop lowers the approval alone, no change touches nothing |
| StockOutcomes.IssueAccepted | inventory/services.py:2275-2323 | exactly unfinished lines, approved for something unless the check is skipped, for a positive quantity that is on hand |
| StockOutcomes.IssueIs | inventory/services.py:2465-2538 | line, stock, movement, and the report's count and status after an issue |
| StockOutcomes.OnlyApprovedIsIssued | inventory/services.py:2289-2297 | over every run no step issues on a line approved for nothing if and only if no warehouse issue skips the check on one; so never in a run that skips no check |
| ReservationLaws.StepQuiet | inventory/services_allocation.py:87-117 | no operation that neither moves stock nor reserves directly (allocation, requests, approvals, decisions, edits, cancelling, release, closing) lets reservations of a part grow beyond its stock on hand, whatever line or report edits it makes |
| ReservationLaws.StepDrain | inventory/services.py:2304-2463 | a stock-moving operation changes signed free stock by exactly its drain; a warehouse issue by minus (qty - released) |
| ReservationLaws.StepReserve | inventory/services.py:1539-1571 | a direct reservation adds its quantity to the ledger, stays within free stock, and keeps the line's bound exactly when within its allocated quantity |
| ReservationRuns.StepCovered | inventory/services.py:2304-2463 | one step of any operation keeps every part free of over-reservation if and only if it fits |
| ReservationRuns.NoOverReservation | inventory/services.py:1458-1471 | over every run: reserved <= on hand for every part in every state if and only if each operation fits; and then 0 <= reserved |
| ReservationRuns.PlainRunFits | inventory/services_allocation.py:91-117 | requests, approvals, allocation, reservation, release, cancellation, direct issue, decisions and closing always fit |
| ReservationRuns.WarehouseIssueMayOverReserve | inventory/services.py:2306-2323 | a run from the empty database after which a warehouse issue beyond its own reservations and free stock over-reserves |
| ReservationRuns.LedgerConservation | inventory/services.py:1555-1571 | over every run rows keep the constraints and their histories, and all quantity ever on a part's rows grows exactly with its lines' allocated quantity plus direct reservations |
| ReservationRuns.LedgerFromEmpty | inventory/models.py:761-798 | from an empty database the two totals are equal |
| ReservationRuns.StepLineBound | inventory/services_allocation.py:97-117 | a line's ACTIVE sum stays within its allocated quantity if and only if the step is not a direct reservation for a line beyond it |
| ReservationRuns.LineBoundOverRuns | inventory/services_allocation.py:97-117 | over every run: the bound holds in every state if and only if no direct reservation for a line goes beyond its allocated quantity |
| ReservationRuns.ClosingReportIsExact | inventory/services.py:1733-1780 | closing cancels exactly the ACTIVE rows that are legacy or of the report's lines, frees exactly their sum, and touches no stock |
| ReservationRuns.CancellingIsExact | inventory/services.py:1193-1267 | cancelling a line cancels exactly its own ACTIVE rows and the legacy ones of its order, frees exactly their sum, keeps its allocated quantity and moves no stock |
| ReservationRuns.UpwardEditRefusedExactly | inventory/services.py:2132-2146 | raising the issue quantity fails if and only if stock is free that the open line could take while it has an ACTIVE row |
| ReservationRuns.DownwardEditKeepsAllotted | inventory/services.py:2147-2170 | lowering it frees exactly the drop from legacy rows or nothing, touches no row of a line, and leaves allotted above approved exactly when more was allotted than is now approved |
| ReservationRuns.OtherMovesKeepReservations | inventory/services.py:1710-1711 | any other move of a report, BLOCKED included, changes no reservation |
| ReservationRuns.SweepIsExact | maintenance/services.py:127-146 | after an order closes its ACTIVE rows are exactly those of lines with issued below approved |
| ReservationRuns.WarehouseIssueIsFifo | inventory/services.py:2331-2439 | takes exactly min(qty, own) from own rows and min(rest, legacy) from legacy rows; legacy rows only after the own rows are released whole, oldest first; splits at most one row; touches no other |
| ReservationRuns.ReleaseIsAllOrNothing | inventory/services.py:1609-1660 | release frees exactly the quantity, oldest legacy rows first, or changes nothing |
| AllocationLaws.QueueIsPriorityOrder | inventory/services_allocation.py:152-161 | the queue holds exactly the open lines of the part, emergencies first, oldest first |
| AllocationLaws.Share | inventory/services_allocation.py:163-168 | line k of a walk gains exactly its want capped by what the lines before it left |
| AllocationLaws.ReallocationIsGreedy | inventory/services_allocation.py:145-177 | one reallocation hands out exactly min(free stock, total want), and no line more than it wants |
| AllocationLaws.ReallocationRespectsPriority | inventory/services_allocation.py:3-10 | if a line gains, every eligible line ahead of it ends fully allocated |
| AllocationLaws.ReallocationIsIdempotent | inventory/services_allocation.py:145-177 | reallocating again at once changes nothing |
| AllocationLaws.DirectIssueWantsAgain | inventory/services.py:131-166 | after a direct issue the new line wants what was issued to it, so the next reallocation hands out min(what is left, all wants plus that quantity) |
| AllocationLaws.ApprovalReservesWhatItCan | inventory/services.py:1019-1031 | approval allots min(approved, free stock), is ALLOCATED exactly when covered, and deducts no stock |
| AllocationLaws.ApprovalIsIdempotent | inventory/services.py:1032-1035 | approving again changes nothing |
| AllocationLaws.RequestIsIdempotent | inventory/services.py:654-674 | a repeated request returns the open line and changes nothing |
| AllocationLaws.RequestShortage | inventory/services.py:687-698 | a new request records what available stock does not cover if and only if free stock is not negative, and more than it asks for if and only if it is; without a stock record, all of it |
| AllocationLaws.ShortageMayExceedRequest | inventory/services.py:697 | a run from the empty database after which a request for one is recorded as six short |
| ShortageLaws.StepReports | inventory/services.py:1676-1700 | every step moves each report along the transition table, keeps its books balanced and the pending constraint |
| ShortageLaws.DecisionBooksOverRuns | inventory/models.py:654-667 | over every run decisions balance, a locked decision is frozen, final statuses are final |
| ShortageLaws.FulfilledForever | inventory/services.py:2190-2218 | a report marked fulfilled keeps issued >= approved issue quantity after any further run |
| ShortageLaws.StepFulfils | inventory/services.py:1713-1726 | a step of any operation keeps "fulfilled reports have issued enough" if and only if it is not a bare transition that fulfils an unissued report |
| ShortageLaws.FulfilledMeansIssued | inventory/services.py:1713-1726 | over every run: it holds in every state if and only if no such bare transition occurs |
| ShortageLaws.TransitionAloneMayFulfilUnissued | procurement/views.py:942-948 | a run from the empty database - five approved, three received and issued - in which the guarded service refuses and the bare transition fulfils |
| ShortageLaws.LinesOverRuns | inventory/models.py:461-473 | over every run at most one open line per order and part, allocated quantity never falls, issued and rejected lines stay so |
| IssueLaws.StepIssues | inventory/services.py:2465-2538 | the issued quantities of a part's lines move exactly with its issue movements; reports keep counting their lines exactly except where a raise resets them |
| IssueLaws.IssuedIsLogged | inventory/services.py:2465-2538 | over every run issued quantities move exactly with issue movements, and reports count their lines in every state if and only if no raise resets a count |
| IssueLaws.IssuedFromEmpty | inventory/services.py:2465-2538 | from an empty database the issued quantities of a part's lines equal its issue movements |
| IssueLaws.RaiseMayLoseCount | inventory/services.py:977-986 | a run from the empty database after which raising the shortage again resets a count of ten to zero |
| PartialIssueLaws.IssuedRowFreedExactly | inventory/services.py:1733-1780 | any operation frees an ACTIVE reservation of an issued line if and only if it closes the line's report, or sweeps its order when issued has reached approved |
| PartialIssueLaws.StrandedForever | maintenance/services.py:127-146 | a reservation of a line issued in part, without a report, stays ACTIVE and unchanged over every run, as does the line |
| PartialIssueLaws.PartialIssueStrandsRest | inventory/services.py:2465-2475 | after a partial warehouse issue on a line without a report the line holds exactly the rest of its reservation in every later state |
| PartialIssueLaws.TwoStranded | inventory/services.py:2465-2475 | a run from the empty database that strands two units |
| PartialIssueLaws.StepCaps | inventory/services.py:2296-2323 | a step keeps issued within approved on every line if and only if it passes KeepsCap |
| PartialIssueLaws.IssuedWithinApproved | inventory/services.py:2296-2323 | over every run: issued is within approved in every state if and only if no warehouse issue goes beyond it and no decision sets it below what was issued |
| PartialIssueLaws.IssueMayExceedApproved | inventory/services.py:2296-2323 | a run from the empty database that issues five on a line approved for three |
| MovementLaws.MovementChain | inventory/services.py:68-116 | over every run movements link end to end per part and on hand equals the opening stock plus their signed sum |
| MovementLaws.StepNonNegative | inventory/services.py:2306-2323 | stock on hand stays non-negative if and only if no receipt is negative beyond the stock |
| MovementLaws.NonNegativeOverRuns | inventory/services.py:381-387 | over every run stock on hand is non-negative in every state if and only if no receipt is negative beyond the stock; runs of non-negative receipts always qualify |
| MovementLaws.ToolNumbering | inventory/services_tools.py:103-145 | over every run units of a part are numbered 1..n without gaps and n units equal its STOCK_OUT total |
| Money.RoundIsNearest | maintenance/cost_ledger.py:45 | rounding gives a nearest hundredth, the even one of two |
| Money.NearestIsUnique | maintenance/cost_ledger.py:45 | there is only one such hundredth |
| Money.RoundIsOdd | maintenance/cost_ledger.py:112 | rounding a negative amount is rounding its magnitude |
| CostService.Service.RefreshCache | maintenance/models.py:1430-1452 | one pass over the journal writes exactly the per-category sums and the row count |
| CostService.Service.Post | maintenance/cost_ledger.py:159-203 | posts the difference to the running net, nothing when equal, and refreshes the cache; a row without a target is refused |
| CostService.Service.Perform | maintenance/cost_ledger.py:28-124 | the four posters and the refresh, with their early returns |
| CostLaws.TotalCostIsAllRows | maintenance/models.py:1333-1336 | the four categories add up to all rows of the order |
| CostLaws.CacheAgreesOverRuns | maintenance/cost_ledger.py:199-219 | in every reachable state the cache equals the journal sums, the count is the number of rows, rows are never zero and never change |
| LedgerOutcomes.CategoriesOverRuns | maintenance/models.py:1430-1452 | over every run each of the four costs of a cached order is the sum of its own category's rows |
| LedgerOutcomes.MaterialPostIs | maintenance/cost_ledger.py:28-55 | issued material moves the material cost of its order by the change of the line's net, and no other cost |
| LedgerOutcomes.VendorPostIs | maintenance/cost_ledger.py:58-77 | a closed repair with a cost moves the vendor cost alone |
| LedgerOutcomes.ConsumablePostIs | maintenance/cost_ledger.py:80-107 | consumed stock moves the consumable cost alone |
| LedgerOutcomes.AdjustmentPostIs | maintenance/cost_ledger.py:110-124 | an adjustment with a long enough reason moves the additional cost alone, in full |
| LedgerOutcomes.UntargetedPostIs | maintenance/cost_ledger.py:159-203 | a posting without an order changes nothing |
| CostLaws.DeltaPostingConverges | maintenance/cost_ledger.py:144-178 | after any interleaving each source's net is the last target posted for it |
| CostLaws.ReplayIsIdle | maintenance/cost_ledger.py:168-175 | posting the same thing again changes nothing |
| CostLaws.AdjustmentPostsInFull | maintenance/cost_ledger.py:110-124 | a manual adjustment posts its whole amount |
| CostLaws.RoundingNeverAccumulates | maintenance/cost_ledger.py:45-55 | the material total of an order with k posted lines is within k half-cents of the exact sum, whatever the order or repetition |
| AverageCost.PartRecord.StockIn | inventory/services.py:72-85 | a receipt with a cost stores the rounded weighted mean, one without leaves the average |
| AverageCost.ReceiptIs | inventory/services.py:72-85 | stock, last cost and average after a receipt, the average being the nearest to the weighted mean, half to even |
| AverageCost.AverageStaysWithin | inventory/services.py:77-83 | over any run at all the stored average stays within two bounds if and only if no receipt's weighted mean rounds to outside them |
| AverageCost.AverageStaysBetween | inventory/services.py:77-83 | over any mix of receipts and issues the stored average stays between the least and greatest cost received if and only if no costed receipt is diluted by stock that never had a cost |
| AverageCost.CostedNeverDiluted | inventory/services.py:77-83 | from empty stock, when every receipt has a cost, none is |
| AverageCost.FirstCostStored | inventory/services.py:77-82 | the first cost on h units without one is stored unchanged if and only if twice cost times h is below the new stock, or equal to it with an even cost |
| AverageCost.CostlessReceiptDragsAverageDown | inventory/services.py:77-82 | a costless receipt then an equal costed one: half the only cost ever paid |
| AverageCost.ValueIsWhatWasBooked | inventory/services.py:77-83 | over any run average times stock is what was put in at cost less what was taken out at the average, within half a unit of cost per unit at hand at each receipt |
| AverageCost.AverageIsTotalPaid | inventory/services.py:80-82 | with receipts only and exact arithmetic average times stock is the total paid |
| AverageCost.StoredAverageNearExact | inventory/services.py:77-83 | the stored average gives that total within the same rounding bound |
| WorkOrderDesks.WorkOrderDesk.Recompute | maintenance/services_wo_status.py:61-93 | the scan of open blockers stores exactly the derived status, and nothing on terminal orders |
| WorkOrderDesks.WorkOrderDesk.OpenBlocker | maintenance/services_blocker.py:85-131 | idempotent per order and reference; records the event and refreshes the order |
| WorkOrderDesks.WorkOrderDesk.OpenPause | maintenance/services_blocker.py:155-190 | one open pause per order |
| WorkOrderDesks.WorkOrderDesk.End | maintenance/services_blocker.py:205-275 | resolving and cancelling: idempotent one way, refused the other way |
| WorkOrderDesks.WorkOrderDesk.Sync | maintenance/services_blocker.py:333-451 | which external event ends the open blocker of a reference, and how |
| WorkOrderDesks.WorkOrderDesk.SyncLineIssued | maintenance/services_blocker.py:358-369 | PART_ISSUED reads the line's status in the stock room |
| WorkOrderDesks.WorkOrderDesk.SyncShortage | maintenance/services_blocker.py:378-397 | SHORTAGE_FULFILLED reads the report's status, decision and issued quantity there |
| UnblockLaws.IssueUnblocksForGood | maintenance/services_blocker.py:358-369 | after a warehouse issue of any quantity, and any further run, PART_ISSUED resolves the oldest open blocker of the line |
| UnblockLaws.LineUnblocksExactly | maintenance/services_blocker.py:358-370 | PART_ISSUED resolves if and only if the line is issued |
| UnblockLaws.ShortageUnblocksExactly | maintenance/services_blocker.py:378-397 | SHORTAGE_FULFILLED resolves exactly when the report could be marked fulfilled or is in fulfilment with no approving decision that asks for more |
| UnblockLaws.MarkedReportNoLongerUnblocks | maintenance/services_blocker.py:378-397 | after marking the report fulfilled the event does nothing any more; the marking has itself settled the blocker |
| UnblockLaws.EndingSettles | inventory/services.py:1795-1840 | the oldest blocker waiting for a report is resolved when it is fulfilled or closed, withdrawn when it is rejected, and left otherwise |
| WorkOrderDesks.WorkOrderDesk.MoveReport | inventory/services.py:1713-1840 | a report's move in the stock room and, when it ends the report, the settling of its shortage blocker on the board |
| WorkOrderDesks.WorkOrderDesk.MarkFulfilled | inventory/services.py:2190-2219 | the same for the guarded fulfilment |
| UnblockLaws.StepNoneWaits | inventory/services.py:1795-1840 | a step of inventory or board keeps every order from waiting for an ended report if and only if it is not a rejecting decision with a blocker open, or the opening of a blocker for an ended report |
| UnblockLaws.EndedReportsHoldNobodyUp | inventory/services.py:1795-1840 | over every interleaving: no order waits, in any state, for a fulfilled, closed or rejected report if and only if no such step occurs |
| UnblockLaws.AwaitingIsReached | inventory/services.py:1908-1912 | creating an order, requesting and opening a blocker reaches the state of the next row |
| UnblockLaws.RejectionLeavesWaiting | inventory/services.py:1908-1912 | rejecting the shortage there leaves the order waiting |
| WorkOrderDesks.WorkOrderDesk.ReleaseDependents | maintenance/services.py:204-224 | the loop resolves every open pause caused by the order |
| WorkOrderDesks.WorkOrderDesk.Transition | maintenance/services.py:33-101 | edges allowed from the caller's copy only, logged from it, refreshed; closing also sweeps the order's reservations in the stock room |
| BoardOutcomes.StatusOverRuns | maintenance/services_wo_status.py:71-93 | in every reachable state an order neither closed nor cancelled stores pending parts, waiting for the vendor, active or paused exactly as its open blockers and its lifecycle say, parts before vendor before pause |
| BoardOutcomes.PartsOutrankVendor | maintenance/services_wo_status.py:80-84 | with a part and a vendor blocker open the order is pending parts |
| BoardOutcomes.OpeningIs | maintenance/services_blocker.py:85-131 | a blocker is opened as asked unless its order has one open for the reference |
| BoardOutcomes.PausingIs | maintenance/services_blocker.py:155-190 | a pause is opened as asked unless the order has one |
| BoardOutcomes.EndingIs | maintenance/services_blocker.py:205-275 | accepted on open blockers and on those ended the same way; the blocker and its event, nothing else but the refreshed order |
| BoardOutcomes.EventIs | maintenance/services_blocker.py:333-451 | which event resolves, which withdraws, and which leaves the oldest open blocker of a reference |
| BoardOutcomes.TransitionIs | maintenance/models.py:375-394 | an order comes to each lifecycle exactly from the listed ones; it is written and logged, and no other lifecycle changes |
| WorkOrderLaws.BoardOverRuns | maintenance/services_wo_status.py:71-93 | in every reachable state stored status equals derived status, open blockers are unique, histories match statuses and ended blockers never change; no step changes a terminal order if and only if no transition on an outdated copy revives one |
| WorkOrderLaws.SettleKeeps | maintenance/services_blocker.py:217-233 | ending a blocker adds its one terminal event and leaves the board fresh |
| WorkOrderLaws.AddKeeps | maintenance/models.py:1859-1865 | a new blocker keeps the open-reference constraint and the one-pause rule |
| WorkOrderLaws.TransitionKeeps | maintenance/services.py:33-74 | a transition keeps the board in order on any copy, and terminal orders frozen if and only if it does not revive one |
| WorkOrderLaws.TransitionReleases | maintenance/services.py:181-241 | an executed transition resolves exactly the open pauses its order caused, except that none is touched - so one survives if and only if there was one - when it goes in progress on a copy that shows it running |
| WorkOrderLaws.FreshCopyAlwaysReleases | maintenance/services.py:175-191 | with a copy fresh at the start every transition releases all dependents |
| WorkOrderLaws.StartReleasesThoughRunning | maintenance/services.py:164-191 | a run in which a dependent is released although its source ends running |
| WorkOrderLaws.PreventiveStartGoesStale | maintenance/preventive_engine/occurrence_service.py:95-104 | starting a preventive order around the transition leaves the stored status derived if and only if a blocker is open; recomputing mends it |
| WorkOrderLaws.RecomputeIsIdle | maintenance/services.py:231-239 | recomputing again changes nothing |
| WorkOrderLaws.StepTraced | maintenance/services.py:33-55 | a step on a current copy keeps every whole log a legal path; one on an outdated copy breaks the log of its order |
| WorkOrderLaws.LogIsLegalPath | maintenance/models.py:375-394 | over every run the whole log of every order leads by allowed edges from its first status to its present one if and only if every executed transition acted on a current copy |
| WorkOrderLaws.LogFromStart | maintenance/models.py:375-394 | the same from the empty board, where first statuses are those in which the run created the orders |
| WorkOrderLaws.CurrentKeepsTerminal | maintenance/services.py:36-47 | on current copies a closed or cancelled order keeps both its statuses over every run |
| DueDates.CalendarIs | maintenance/services.py:938-949 | month lengths, February longer exactly where the count of leap years goes up |
| DueDates.IteratedMonthly | maintenance/services.py:938-944 | k steps of n months land k*n months on, on the least of the start day and all visited months' lengths |
| DueDates.IteratedAgainstOneStep | maintenance/services.py:938-944 | same month as one step of k*n, a day no later, at least min(day, 28) |
| DueDates.DriftExactly | maintenance/services.py:972-974 | the iterated date is the one-step date if and only if no month on the way is too short |
| DueDates.DueDateAdvances | maintenance/services.py:972-974 | the due date strictly advances and its day never grows back |
| DueDates.YearlyIsTwelveMonthly | maintenance/services.py:945-949 | a yearly step of n is a monthly step of 12n |
| AssetTree.Validate | maintenance/validators.py:13-32 | the walk accepts exactly when the nearest machine above the component is the given one |
| AssetTree.ComponentsAre | maintenance/models.py:199-206 | the recursion lists exactly the components below the machine |
| AssetTree.BelowDistinct | maintenance/models.py:199-206 | and none twice |
| AssetTree.WalkAgreesWithRecursion | maintenance/validators.py:21-29 | for a component, walk and recursion agree on every machine if and only if no two machines lie above it |
| AssetTree.ValidationIsListing | maintenance/validators.py:21-29 | where no machine lies under another, validation and listing coincide |

## Left out

- StockRooms.StockRoom.RequestPart: for an emergency order with enough free stock the model takes the abort that the unique constraint on open lines forces; the automatic issue itself is not modelled.
- StockRooms.StockRoom.Consume: whether the operator may take the part and whether the cost ledger accepts the posting are parameters; the assignment record is not modelled. It stands for both self-service use and supervisor issue.
- StockRooms.StockRoom.Decide: the purchase request created for the procured quantity is not modelled.
- StockRooms.StockRoom.EditDecision: carrying a changed procurement quantity over to the purchase request is not modelled.
- WorkOrderDesks.WorkOrderDesk.Sync: which entity a repair event looks its blocker up by is the parameter `ref`.
- StockRooms.StockRoom.MoveReport: cancelling pending purchase requests is not modelled; ending the shortage blocker is WorkOrderDesk.MoveReport.
- StockRooms.StockRoom.DirectIssue: a cost posting that raises and undoes the whole issue is not modelled; such a call leaves the state as it was, so every run remains one without it.
- StockRooms.StockRoom.WarehouseIssue: the same.
- CostService.Service.RefreshCache: the committed material cost of approved lines is not modelled.
- AverageCost.PartRecord.StockIn: the division to 28 significant digits that precedes rounding to four places is taken as exact.
- AssetTree.Components: children are visited in key order instead of by name; the depth of each asset is a ghost argument that witnesses the absence of cycles.
- Best-effort calls from part operations into the blocker service: their failures are swallowed and they touch no stock, so runs of the two parts are studied separately; closing an order is the one step that spans both.
- Where a caller's in-memory copy of an order comes from: the copy is a parameter of the transition, with any lifecycle and status.
- The preventive engine creates orders in progress and writes lifecycles around the transition service (maintenance/preventive_engine/occurrence_service.py:75-104, 189, 223, 261): runs are of the modelled services only, and PreventiveStartGoesStale says what one such write does.
- `issue_consumable` is not itself a transaction (inventory/services.py:495) and relies on the one its view opens (maintenance/views.py:2855); the model takes the whole as one.
- Reservations without a work order, and lines or reports of other origins than a work order.
- Daily and weekly due dates, the time of day, and years beyond 9999.
- Field widths of decimal columns, several sites, real concurrency and row locks.
- Procurement, automatic fulfilment from purchase orders, the legacy cost recalculation, emergency review, tool assignment and repair.
- The stock adjustment view writes the quantity on hand directly (maintenance/views.py:5588, 5598): runs are of the modelled services only.
- The PART_REJECTED event a rejection or cancellation sends about its line, and the recording of PART_APPROVED: Sync models what the former does to the board.
- Notifications, audit rows, duplicate guards by wall clock, views, forms and files.
