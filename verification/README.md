# Order service: protocols, money and stores

A Dafny model of the order service of a food-delivery platform and proofs of what it keeps. The service owns orders,
their status, assignment of delivery agents, payments and payouts, a transactional outbox and a yearly archive. Its
state lives in relational tables, in a Redis-like store whose keys may expire at any moment, and in a message broker;
several processes work on all three at once.

Every component is modelled twice over the same data. A **machine** (`Step`, `Run`) takes one Redis command or one
database transaction as one step and lets any number of processes interleave, crash and be retried; the main results
speak about every run of it. A **class** or method is the code itself in the form the source has it, field updates and
loops included, proved to do exactly what the machine's steps or a separate specification say.

| module | models |
|---|---|
| `OrderStatus`, `Lifecycle` | the transition table, what each writer of a status checks, paths of the table, history |
| `StatusWrites`, `StatusService` | the writers of a status with check, write and event insert apart, and other writers in between |
| `Assignment`, `AssignmentService` | offer, claim and attempts keys racing with the conditional row update; candidate search |
| `Archival` | the hot-to-archive sweep with crashes, overlapping sweeps and the runtime cap |
| `Outbox` | concurrent drainers with row locks, publish inside the transaction |
| `Money` | shares computed on floating-point Numbers and floored |
| `Ledger`, `Settlement`, `Finance`, `FinanceService` | ledger rows, settlement of a delivery, payouts, balances |
| `Deliveries` | how often an order is settled, with overlapping deliveries and stale status writes |
| `Webhook`, `WebhookService` | payment webhooks: duplicate removal, capture, charge, placement |
| `ProductCache` | cache entries fed by events and refilled from core; product lookup |
| `Placement` | order validation, stock reservation and its undo, storage |
| `Common` | options, results, filters, distinctness |

Dafny's `requires` on a method states only what its callers ensure. What the code cannot know (whether a publish
reaches the broker, a transaction commits, a reply gets lost, what other processes do while a call waits) is a
parameter, and the results hold for all its values.

## Where the code decides

The model follows the code where it differs from its comments or documents:

- The claim key is described as an idempotency lock. It can go away while its holder still works: it expires, or a call
  undoing its own deletes it, and a refused call deletes it twice. The key excludes exactly in the runs without such a
  removal (`Assignment.KeyExcludesIffNeverRemoved`, `Assignment.SecondDeletionBreaksExclusion`); what makes claiming
  safe is the conditional row update alone.
- `goOffline` tests an array for truth, so its reset of assigned orders never happens (src/app/agent/service/presence.service.ts:56-62),
  and the private `reject` that clears the agent has no caller. A reset is an optional event of the machine, and the
  bound counts it.
- Both fee guards of a settlement look for the same kind of row, so the delivery fee is never booked when both fees
  are positive (`Settlement.OwnerKeepsTheCredit` gives the resulting difference and when it occurs).
- Every writer of a status but the conditional claim reads and checks the row first and writes it later by its public id
  alone: the HTTP update, `pickup`, `deliver` and the webhook. A write is a change the table allows its actor, with a
  reason where one is due, if and only if the check would still pass on the row as it is by then
  (`StatusWrites.WriteIsLawfulIffStillAllowed`), and always if nobody wrote the status since the check. Otherwise a
  cancelled order comes back to life (`StatusWrites.StaleAcceptanceRevivesACancelledOrder`), is picked up
  (`StatusWrites.PickupOverridesACancellation`) or placed (`StatusWrites.CapturePlacesACancelledOrder`), a restaurant
  cancels along the administrator's edge (`StatusWrites.RestaurantCancelsAnAssignedOrder`), or a cancellation lands
  without its reason (`StatusWrites.CancellationLandsWithoutItsReason`). Even a terminal row stays if and only if no
  writer of it is between check and write (`StatusWrites.TerminalStaysIffNonePending`).
- `updateStatus` opens a transaction and does not use it: the status and its event are written in two statements of their
  own. A failed insert leaves the status without its event and the caller with an error
  (`StatusWrites.EventsAreVisitsLessLostInserts`, `StatusService.OrderStore.UpdateStatus`).
- `deliver` checks that the row is PICKED before its transaction opens. Two calls that both passed the check settle the
  order twice: two credits, two events, one set of ledger rows (`Deliveries.OverlappingDeliveriesCreditTwice`). Deliveries
  that do not overlap do so as well when a stale pickup writes PICKED over DELIVERED in between
  (`Deliveries.StalePickupSettlesTwice`). An order stays settled once if and only if, when it was first settled, no other
  call had passed its check and no write of PICKED was pending (`Deliveries.SettledOnceForGoodIffNoRival`). A status update
  over HTTP can also write DELIVERED, without settling.
- Every webhook that passes the "pay" filter takes the success branch, whatever its status field says: no clause of
  `WebhookService.PaymentWebhookService.VerifyAndProcessWebhook` depends on it. An event whose processing crashed or failed is
  lost for good (`Webhook.FailedEventsAreNeverCaptured`).
- The webhook's transaction reads order and session without locking them, so two events of one order can capture the same
  session and place the order twice (`Webhook.TwoEventsCaptureOneSession`). No session is captured twice if and only if
  no commit finds its session captured already (`Webhook.SessionsCapturedOnceIffNoneDoubles`), and none can be unless two
  transactions under way have chosen it (`Webhook.UnsharedSessionsAreCapturedOnce`).
- The charge of a capture is skipped when any row carries the reference, also a payout's
  (`Webhook.ReusedReferenceHidesTheCharge`, and `Webhook.BookedIffReferenceFree` for the exact condition).
- The archive insert ignores a conflict on any unique key, so a sweep keeps every row if and only if no due row
  clashes with a different archive row (`Archival.SweepKeepsRowsIffCompatible`, `Archival.ClashLosesARow`).
- The history of an online order that is not paid yet already lists PLACED (`StatusWrites.HistoryRebuildsTheRun` says
  exactly when the history is right).
- A refill of the product cache that is overtaken by an event can leave a wrong price with nothing pending to correct
  it (`ProductCache.OvertakenRefillLosesAPrice`; `ProductCache.RefillAgreesIffTimely` gives the exact condition).
- Requests to core are retried. A reservation whose replies are all lost leaves stock taken, and an undo, which carries
  no idempotency key, is applied once more for every lost reply (`Placement.UndoIsAppliedOncePerLostReply`). A commit
  whose reply is lost stores the order and gives its stock back all the same (`Placement.StockIsConservedIffNoLeak`).
- "A crash never strands a child whose parent is already gone" holds within a year and of rows of prior years only: a
  child of a later year than its parent stays behind in the hot store (`Archival.StrandedIffYearBeganBetween`), and a
  sweep under way when a year begins can strand a child of its parent's own year (`Archival.SweepAcrossNewYearStrands`).
  `Archival.StrandedByLoneSweepIff` gives the exact condition for a sweep across any number of years.
- A pass over the outbox stops at the first refusal, so a row that is refused every time blocks all younger ones for ever
  (`Outbox.RefusedHeadBlocksTheRest`).

## Model

| member | source | states |
|---|---|---|
| Lifecycle.BuildHistory | src/app/order/dto/order.response.dto.ts:123-144 | The pushes give one entry for each stamp that is set, in the fixed order |
| OrderStatus.TableByActor | src/app/order/service/order-status.service.ts:13-80 | The check accepts a change exactly if its actor may make it, as listed actor by actor, and refuses the want of a reason exactly for rejections and for cancellations of anything but an unpaid order whose reason is missing or white space; it names the column of the new status |
| Lifecycle.CallersActAsTheirGroup | src/app/order/service/order.service.ts:456-472 | A caller acts as administrator, agent, restaurant member or customer exactly if it is in that group for the row: by role; by being the row's agent; by the row's restaurant with ownership or the row's branch; by being the row's customer and no restaurant user; as nobody else |
| StatusWrites.WriteIsLawfulIffStillAllowed | src/app/order/service/order.service.ts:382-430 | In every run, whatever was written in between: the row that an HTTP update, pickup, delivery or capture writes after its check is a change the table allows its actor, with the table's stamp, a reason where one is due and no other column changed, if and only if the check for that actor and reason would still pass on the row as it is by then |
| StatusWrites.FreshWritesAreLawful | src/app/order/service/order-status.service.ts:13-80 | It always is when nobody wrote the order's status since the check |
| StatusWrites.ClaimsAreLawful | src/app/order/repository/order.repo.ts:277-293 | The conditional claim always is, with no such condition |
| StatusWrites.NoHttpWriteIsTheSystems | src/app/order/service/order.service.ts:456-470 | In every run no HTTP caller, however late its write, acts as the system or writes a status the table reserves to it |
| StatusWrites.WritersWereCheckedOnTheirRow | src/app/order/service/order.service.ts:382-395 | In every run every writer between check and write was checked on its order's row as it was read: an HTTP caller as a member of exactly the group it acts for, making a change that group may make, with a reason where one is needed; a pickup or delivery as the order's agent; a capture on an unpaid order |
| StatusWrites.OrdersKeepTheirParties | src/app/order/repository/order.repo.ts:145-165 | In every run an order is of the restaurant, branch, customer and payment method it was placed with |
| StatusWrites.StatusesArePathIffOnEdges | src/app/order/service/order-status.service.ts:13-42 | In every run, stale writes included, an order's statuses form a path of the table if and only if each write took an edge from the status the row had by then |
| StatusWrites.FreshWritesTakeEdges | src/app/order/service/order.service.ts:382-430 | They do in every run in which nobody else writes the status between the check and the write of any writer of it |
| StatusWrites.AtMostSevenTransitions | src/app/order/service/order-status.service.ts:13-42 | Such an order makes at most seven transitions, the rank rising with each |
| StatusWrites.TerminalStaysIffNonePending | src/app/order/service/order-status.service.ts:13-42 | In every run a rejected, delivered or cancelled order is never written again, in any continuation, if and only if no writer of it is between check and write |
| StatusWrites.EventsAreVisitsLessLostInserts | src/app/order/service/order.service.ts:409-428 | In every run, stale writes included, order.placed, order.accepted, order.rejected and order.cancelled are in the outbox as often as the order took their status, less the inserts of HTTP updates that did not run; order.delivered at most as often |
| StatusWrites.OneEventPerStatusVisit | src/app/order/service/order.service.ts:171-220 | For an order whose writes took edges order.placed is there exactly once if it was ever PLACED and never otherwise; accepted, rejected and cancelled likewise exactly when their inserts ran |
| StatusWrites.HistoryRebuildsTheRun | src/app/order/dto/order.response.dto.ts:123-144 | For such an order the rebuilt history is exactly the statuses taken, in order and without PREPARING, if and only if the order pays in cash or was placed; its timestamps never decrease |
| StatusWrites.StaleAcceptanceRevivesACancelledOrder | src/app/order/service/order.service.ts:382-430 | A cancellation and an acceptance that both passed their check turn a CANCELLED order ACCEPTED |
| StatusWrites.CapturePlacesACancelledOrder | src/app/payment/service/webhook.service.ts:104-177 | A customer's cancellation between the webhook's read and its write leaves the order PLACED, with order.placed |
| StatusWrites.PickupOverridesACancellation | src/app/agent/service/delivery-lifecycle.service.ts:145-158 | An administrator's cancellation between a pickup's check and its write leaves the order PICKED |
| StatusWrites.RestaurantCancelsAnAssignedOrder | src/app/order/service/order.service.ts:382-430 | A restaurant's cancellation checked at READY and written after a claim takes an edge that is the administrator's alone |
| StatusWrites.CancellationLandsWithoutItsReason | src/app/order/service/order.service.ts:382-430 | A customer's cancellation without a reason, checked before the capture and written after it, lands where a reason is due |
| StatusWrites.TwoCapturesPlaceTwice | src/app/payment/service/webhook.service.ts:104-177 | Two captures that both found the order unpaid emit order.placed twice |
| StatusService.OrderStore.UpdateStatus | src/app/order/service/order.service.ts:382-430 | Whatever runs between its check, its write and its insert, it is one call of the machine; a caller of no group for the row is not authorised, one of a group is refused exactly what that group may not do or may not do without the reason it gave, and without effect; past the check, row, stamp column, event and answer are given for every way in which the two statements end |
| StatusService.OrderStore.Pickup | src/app/agent/service/delivery-lifecycle.service.ts:145-158 | Whatever runs in between it is one call of the machine; refused exactly to anybody but the order's agent and in any status but ASSIGNED, and then without effect; undisturbed the row is PICKED with its stamp unless the write failed |
| StatusService.OrderStore.UpdateOrderStatus | src/app/order/repository/order.repo.ts:145-165 | Status and the one stamp column change, nothing else |
| StatusService.OrderStore.ClaimReadyOrderForAgent | src/app/order/repository/order.repo.ts:277-293 | The row is taken if and only if it is READY without an agent, and is then ASSIGNED to the caller's agent |
| Assignment.AtMostOneSuccess | src/app/assignment/service/assignment.service.ts:177-325 | For every interleaving of claims, admin assignments, expiries, foreign deletions of the claim key and failures, without a reset two successful calls on an order are the same call, the row's agent is its agent, and a claim's agent was in the offer it read |
| Assignment.OnlyReadyRowsAreTaken | src/app/order/repository/order.repo.ts:277-293 | Whatever the step, an order that gets an agent was READY without one and becomes ASSIGNED to the agent of a call that held its claim key, which is noted as its winner |
| Assignment.SuccessesBoundedByResets | src/app/assignment/service/assignment.service.ts:177-325 | With resets, successful calls are at most one more than resets |
| Assignment.AgentStays | src/app/order/repository/order.repo.ts:277-293 | Once a row has an agent no interleaving without a reset changes it |
| Assignment.ClaimKeyIsNotALock | src/app/assignment/service/assignment.service.ts:190-219 | From any state with the key free two calls can hold it at once, and the first's clean-up deletes the other's key |
| Assignment.KeyExcludesIffNeverRemoved | src/app/assignment/service/assignment.service.ts:190-219 | In a run two calls can come to hold an order's key at once, with no further removal, if and only if at some moment the key expired or was deleted by a call undoing its own while some call held it |
| Assignment.TwoHoldersNeedARemoval | src/app/assignment/service/assignment.service.ts:190-219 | Whenever two calls hold the key at once, such a removal came before |
| Assignment.SecondDeletionBreaksExclusion | src/app/assignment/service/assignment.service.ts:208-219 | Without any expiry, the second deletion by a refused call takes the next holder's key, and a third call holds it too |
| Assignment.RunKeepsSafe | src/app/assignment/service/assignment.service.ts:177-325 | The safety invariant of rows, winners and calls holds over every run |
| Assignment.AttemptsAreBounded | src/app/assignment/service/assignment.service.ts:97-132 | With k workers the attempts counter never exceeds maxAttempts + k - 1, exactly maxAttempts for one, and the offers of one counter lifetime are at most the counter plus those in flight when it began |
| AssignmentService.FindCandidates | src/app/assignment/service/assignment.service.ts:334-358 | Of the first 4N hits the scan with early exit returns the agents of those that name a finite, online and free agent, in distance order: all of them, or the first N |
| AssignmentService.Service.Claim | src/app/assignment/service/assignment.service.ts:177-244 | Whatever runs in between, a claim is one call of the machine, keeps its safety and succeeds only for an agent of the offer it read; its own update took the row exactly when it succeeds, fails after its commit, or loses the reply of that; undisturbed, its answer and the rows and keys it leaves are given for every case |
| AssignmentService.Service.AdminAssign | src/app/assignment/service/assignment.service.ts:280-325 | The same without an offer |
| AssignmentService.Service.Reject | src/app/assignment/service/assignment.service.ts:252-272 | Whatever runs in between, it is one call of the machine; undisturbed the new list names every other agent as often as before and the caller not at all, an offer that names nobody else is dropped, and a failure has no effect |
| AssignmentService.Service.TryAssign | src/app/assignment/service/assignment.service.ts:97-168 | Whatever runs in between, it is one worker's pass through the machine; undisturbed it is skipped exactly while an offer is out, exhausted exactly at the cap, and otherwise spends one attempt and offers the candidate list |
| AssignmentService.Service.TickRegion | src/app/assignment/service/assignment.service.ts:67-86 | A sequence of such passes; undisturbed, exactly the orders without an offer, below the cap and with candidates get an offer, which is their candidate list; one attempt is spent by exactly those without offer and below the cap; standing offers stay; the counts add up |
| AssignmentService.Service.TickUntilExhausted | src/app/assignment/service/assignment.service.ts:97-132 | Repeated ticks whose offers expire in between reach exhaustion after exactly maxAttempts - attempts of them |
| Archival.NoRowIsLost | src/lib/jobs/archival.worker.ts:64-126 | In every interleaving of overlapping sweeps and crashes at any step, each row is in hot or archive with its content, and the stores hold nothing else |
| Archival.FinishedSweepConverges | src/lib/jobs/archival.worker.ts:75-116 | After any crashed, capped or overlapping sweeps and any new years, a sweep that finishes leaves nothing older than the year under which it passed each table; if no year began since it passed the first, hot is exactly the current year and archive exactly the rest |
| Archival.ChildrenLeaveFirst | src/lib/jobs/archival.worker.ts:28-35 | In every run, new years included: when a row has left hot, whatever an earlier table still holds is no older than the year under which the sweep that took the row had passed that table |
| Archival.OnlyLaterChildrenAreStranded | src/lib/jobs/archival.worker.ts:15-24 | In every run, new years included, a child whose parent left is still in hot only if a year began between their creations, or while the sweep that took the parent was past the child's table |
| Archival.OrdersAreSweptLast | src/lib/jobs/archival.worker.ts:26-35 | All six tables are swept, and rows that name an order belong to the table that is swept last |
| Archival.StrandedIffYearBeganBetween | src/lib/jobs/archival.worker.ts:26-35 | After a finished sweep, and before a year has begun since it passed its first table, a child is left behind by its parent if and only if the year began between their creations |
| Archival.StrandedByLoneSweepIff | src/lib/jobs/archival.worker.ts:75-116 | When the only sweep of a run has finished, whatever years began meanwhile, a row is left if and only if it is no older than the year under which its table was passed; a child is stranded if and only if that holds of it and not of its parent |
| Archival.SweepAcrossNewYearStrands | src/lib/jobs/archival.worker.ts:86-99 | A year that begins between the earnings and the orders makes the sweep take an order of the ended year and leave its earning of the same year |
| Archival.SweepKeepsRowsIffCompatible | src/lib/jobs/archival.worker.ts:98-99 | A full sweep keeps every hot row if and only if each due row is archived already as it is, or is not archived and no archived row of its table holds its unique key |
| Archival.ClashLosesARow | src/lib/jobs/archival.worker.ts:98-99 | A row whose unique key the archive holds under another id is in neither store afterwards |
| Archival.RegionStores.ArchiveRegion | src/lib/jobs/archival.worker.ts:64-126 | Of the rows that left hot exactly those arrived in the archive whose unique key no archived row of their table held, and nothing else changed there; counts are the rows removed; no table is touched before earlier ones are drained; a finished sweep leaves nothing due, and it stops at the first reading of the clock that reaches the runtime cap and at no other |
| Archival.RegionStores.DrainTable | src/lib/jobs/archival.worker.ts:81-108 | The batch loop removes due rows of one table only and counts them; it stops at the first reading of the clock that reaches the cap, and until nothing is due every batch is full |
| Outbox.AtLeastOnceWithBoundedDuplicates | src/lib/events/outbox-drain.ts:17-57 | In every run no row is held by two drainers, a committed dispatched row was published, only committed rows are published, and each at most 1 + attempts + rolled-back passes times |
| Outbox.CommittedRowsStay | src/lib/events/outbox.repo.ts:10-18 | A committed event keeps its row and content, and stays dispatched once it is |
| Outbox.ClaimTakesTheOldest | src/lib/events/outbox.repo.ts:42-51 | With no other drainer at work a claim is exactly the oldest undispatched rows, up to the limit |
| Outbox.HealthyPassesDrainTheBacklog | src/lib/events/outbox.repo.ts:42-51 | k passes without refusal publish exactly the first k * limit undispatched rows, in id order and once each |
| Outbox.RefusedHeadBlocksTheRest | src/lib/events/outbox-drain.ts:41-50 | With one drainer at a time, a row that is refused in every pass keeps every younger row from being published or dispatched, however many passes run and whatever producers add |
| Outbox.PassIsARun | src/lib/events/outbox-drain.ts:17-57 | What one pass leaves is what the machine's steps leave, so the guarantees over all runs hold of it |
| Outbox.OutboxTable.ClaimBatch | src/lib/events/outbox.repo.ts:42-51 | The claimed rows are the oldest free undispatched ones, up to the limit |
| Outbox.OutboxTable.DrainOutboxForRegion | src/lib/events/outbox-drain.ts:17-57 | Rows before the first refusal are published in order and dispatched; the refused one is published only if it reached the broker and keeps a failed attempt; a failed mark undoes every mark but no publish; no other row changes |
| Money.FloatFloorIsIntegerDivision | src/app/finance/service/settlement.service.ts:48-49 | For every 32-bit amount and rate up to 10000, rounding product and quotient to Numbers and flooring is exact integer division |
| Money.EveryValueRounds | src/app/finance/service/settlement.service.ts:48-49 | Every exact value has a nearest Number, so the rounding spoken of always exists |
| Money.ShareIsWithin | src/app/finance/service/settlement.service.ts:48-49 | A share lies in 0..amount and is the whole only for a zero amount or a full rate |
| Money.RoundingLossIsBounded | src/app/finance/service/settlement.service.ts:48-49 | Over n orders rounding loses at least 0 and less than n minor units |
| Settlement.FirstSettlement | src/app/finance/service/settlement.service.ts:54-188 | The first settlement of an order adds exactly its rows, leaves all other orders' rows and payouts, moves the balance of the order's restaurant in the order's currency by the subtotal less commission and no other balance, and gives the agent the share of the delivery fee and the event |
| Settlement.SettlementAdds | src/app/finance/service/settlement.service.ts:54-188 | Any settlement, first or repeated, adds exactly the rows its guards find missing, and pays out as the first does |
| Settlement.SettlementPaysOut | src/app/finance/service/settlement.service.ts:177-225 | Whatever was settled before: for every restaurant and currency the balance moves by the subtotal less commission if they are the order's and by nothing otherwise; the earning is the agent's share of the delivery fee unless one is there; the event carries the commission |
| Settlement.SettlementKeepsRows | src/app/finance/service/settlement.service.ts:54-100 | Whatever was settled before: rows are added behind those there, of which only the order's oldest cash collection changes; it is succeeded afterwards, and a cash order always has one |
| Settlement.FirstRowsMoveMoney | src/app/finance/service/settlement.service.ts:54-175 | What the rows of a first settlement move, for every account: the customer pays the total in cash to the owner, the owner owes the platform the commission and one fee, nobody else is touched |
| Settlement.FirstRowsAre | src/app/finance/service/settlement.service.ts:54-175 | Those rows are succeeded, of the order, in its currency, each under the key of its kind, and of exactly the kinds that are due |
| Settlement.FirstSettlementGoesThroughIff | src/app/finance/service/settlement.service.ts:54-225 | A first settlement goes through if and only if the keys of the rows due are free and every number it writes fits its column |
| Settlement.OwnerKeepsTheCredit | src/app/finance/service/settlement.service.ts:54-188 | For a cash order the owner's ledger gain is the balance credit, plus the delivery fee exactly when both fees are positive |
| Settlement.SettlingAgainCreditsAgain | src/app/finance/service/settlement.service.ts:54-225 | Settling again, at any rate, goes through exactly when the credit fits and a commission row first due now is free; it adds no earning and no row but that one, and credits the restaurant and inserts the event again |
| Ledger.CreateAllAppends | src/app/payment/repository/transaction.repo.ts:34-58 | Insertions that all succeed append their rows and keep idempotency keys unique |
| Finance.BalancesAreConserved | src/app/finance/service/finance.service.ts:74-107 | In every run the balance of a restaurant in a currency is the subtotals less commission of its committed deliveries in that currency, less the succeeded payouts to it in that currency, within 0 and the column's maximum; an uncommitted deduction never goes below zero |
| Finance.PayoutsTakeFromTheirRestaurant | src/app/finance/service/finance.service.ts:74-107 | In every run a payout call passes the lock if and only if the balance of its restaurant in its currency covers the amount, and its commit takes the amount from that balance and from no other |
| Finance.OnePayoutPerKey | src/app/finance/service/finance.service.ts:65-118 | However payout calls interleave, no key is paid twice, payout rows are exactly the payouts made, each of the amount in its currency to the owner, and a paid key's row is the only one under it |
| Finance.BooksHoldTheDeliveries | src/app/finance/service/settlement.service.ts:54-225 | In every run, overlapping deliveries and stale status writes included, an order's ledger rows, earning and events are exactly those of its committed deliveries, all of them by the order's agent, and none without one |
| Deliveries.SettledOnceForGoodIffNoRival | src/app/agent/service/delivery-lifecycle.service.ts:145-186 | In every run, when an order is first settled it stays settled once in all continuations if and only if no other call had passed its check and no write of PICKED was pending |
| Deliveries.SettledAgainIffRivalRemains | src/app/agent/service/delivery-lifecycle.service.ts:145-186 | In every reachable state a settled order can be settled again if and only if some call has passed its check and not ended, some writer is about to set it to PICKED, or it is PICKED again |
| Deliveries.SecondSettlementHadARival | src/app/agent/service/delivery-lifecycle.service.ts:145-186 | In every run that settles an order twice, another call had passed the check or a write of PICKED was pending when it was first settled |
| Deliveries.EachFurtherSettlement | src/app/finance/service/settlement.service.ts:54-225 | In every run each further settlement credits the restaurant and inserts the event again, with no earning and no ledger row but a commission row none before had |
| Deliveries.OverlappingDeliveriesCreditTwice | src/app/agent/service/delivery-lifecycle.service.ts:160-186 | Two calls that both found the order PICKED credit it twice and emit order.delivered twice over one set of rows |
| Deliveries.StalePickupSettlesTwice | src/app/agent/service/delivery-lifecycle.service.ts:145-186 | Deliveries that do not overlap settle the order twice when a pickup that passed its check earlier writes PICKED in between |
| Deliveries.DeliveredStaysIffNoOtherWrite | src/app/agent/service/delivery-lifecycle.service.ts:145-186 | In any state a delivered order stays DELIVERED in all continuations if and only if every write of its status that is pending writes DELIVERED |
| Deliveries.SettledExactlyOnce | src/app/agent/service/delivery-lifecycle.service.ts:145-186 | In every run in which an order is not first settled beside another passed call or a pending write of PICKED, it is delivered by `deliver` at most once; exactly then commission, collection, fee, earning and one event are in the books, and otherwise none of them |
| Finance.RunKeepsInv | src/app/finance/service/finance.service.ts:65-118 | Ledger, balances, locks, inserts and settlements stay consistent over every run |
| FinanceService.Service.SettleDeliveredOrder | src/app/finance/service/settlement.service.ts:30-235 | Row by row under its guards it reaches exactly the settled books, with the restaurant's balance, the agent's earning and the event on the order's columns, the order's oldest cash collection completed and no other row changed, or refuses exactly when they cannot be reached |
| FinanceService.Service.Deliver | src/app/agent/service/delivery-lifecycle.service.ts:160-186 | Whatever runs between its check and its transaction, other deliveries of the order included, it is one call of the machine; each refusal in exactly its case; undisturbed the order is delivered and settled, the restaurant credited, exactly when the check passes, the settlement goes through and the transaction commits, and the call says so exactly when the reply arrives; otherwise nothing changes |
| FinanceService.Service.CommitSettlement | src/app/agent/service/delivery-lifecycle.service.ts:165-185 | Status, settlement and journal commit together or only the call ends, for each way in which the commit ends |
| FinanceService.Service.RecordPayout | src/app/finance/service/finance.service.ts:49-119 | Whatever runs in between it is one call of the machine; it answers with the row under its key, pays at most once, and an error means it paid nothing unless the reply of its commit was lost, and then it paid; undisturbed, it is refused for its balance if and only if the key is new and the restaurant's balance in the currency is missing or below the amount, and a payout takes the amount from that balance and from no other, with a row to the owner |
| FinanceService.Service.InsertPayout | src/app/payment/repository/transaction.repo.ts:34-58 | A key already in the ledger closes the call, deduction undone, and only then |
| FinanceService.Service.BookRows | src/app/finance/service/settlement.service.ts:54-175 | The guarded insertions in sequence book the collection, commission and one fee row that were missing at the start; for an order without settlement rows those of a first settlement |
| Webhook.ChargesMatchCapturedSessions | src/app/payment/service/webhook.service.ts:94-153 | In every run with duplicates, crashes, rollbacks and overlapping transactions no event is captured twice, every captured session has its capture, of its order and amount; sessions and captures are equally many exactly when no session was captured twice, charges and captures exactly when each charge was booked, which holds if references are disjoint |
| Webhook.ChargesGoFromCustomerToPayee | src/app/payment/service/webhook.service.ts:120-153 | In every run every charge of the ledger is a capture's, by which the customer of the order pays the order's total in its currency to the owner given at its commit, or to the restaurant when none was given |
| Webhook.SessionsCapturedOnceIffNoneDoubles | src/app/payment/repository/payment-session.repo.ts:62-91 | In every run no session is captured twice if and only if no commit found the session it had chosen captured already |
| Webhook.UnsharedSessionsAreCapturedOnce | src/app/payment/service/webhook.service.ts:110-118 | In every run in which no two transactions under way have chosen the same session, none is captured twice |
| Webhook.TwoEventsCaptureOneSession | src/app/payment/service/webhook.service.ts:100-207 | Two overlapping events of one order leave two charges, two payment.completed and two order.placed for one session |
| Webhook.BookedIffReferenceFree | src/app/payment/service/webhook.service.ts:100-153 | In every reachable state the transaction of an event that has chosen its session commits exactly when the charge can be booked or is hidden; the charge is booked if and only if no payout or refund row carries its reference |
| Webhook.FailedEventsAreNeverCaptured | src/app/payment/service/webhook.service.ts:94-98 | An event whose processing crashed or failed is captured in a later run only if it was before, which takes a commit whose reply was lost |
| Webhook.PlacesAlongTheTableIffStillUnpaid | src/app/payment/service/webhook.service.ts:176-207 | In every run a capture whose transaction found the order unpaid sets it to PLACED, along an edge of the table if and only if it is still unpaid by then; any other capture leaves the status |
| Webhook.PlacedAtMostOnce | src/app/payment/service/webhook.service.ts:176-207 | In every run in which no two transactions under way have found an order unpaid, order.placed is emitted at most once for it and never while it waits for payment |
| Webhook.OneEventPerCapture | src/app/payment/service/webhook.service.ts:155-207 | In every run payment.completed is emitted once for each capture of an order, order.placed once for each capture that had found it unpaid and once at the start for cash |
| Webhook.ReusedReferenceHidesTheCharge | src/app/payment/service/webhook.service.ts:132-153 | A payout row with the event's reference leaves a captured session without any charge |
| WebhookService.PaymentWebhookService.FindPaymentSessionByOrderId | src/app/payment/repository/payment-session.repo.ts:62-73 | The active session with the greatest id, none if there is no active one |
| WebhookService.PaymentWebhookService.InsertWebhookEvent | src/app/payment/repository/payment-webhook-event.repo.ts:23-45 | The event row is inserted exactly when the id is new |
| WebhookService.PaymentWebhookService.ProcessEvent | src/app/payment/service/webhook.service.ts:100-286 | Whatever runs between its reads and its writes, it is one event of the machine; it is captured exactly when the answer says so or the reply of its commit was lost; undisturbed, answer and state are given for every case |
| WebhookService.PaymentWebhookService.VerifyAndProcessWebhook | src/app/payment/service/webhook.service.ts:50-287 | Malformed, ignored, duplicate, unsigned or wrongly signed deliveries and those for an inactive provider change nothing, each in exactly its case; every other is receipt then processing, whatever runs in between, with no dependence on the status field; undisturbed, each answer has its exact case, and a capture is of the latest active session, books one charge of its amount from the customer to the owner or restaurant unless a row carries the reference, and places an unpaid order, while a failure changes nothing but the event row |
| ProductCache.CacheAgreesThroughItsBacklog | src/app/order/service/core-data-cache.service.ts:77-94 | Through any run whose refills land in time, every cached price, stock and availability is core's after the pending events, and equal to core's when none is pending |
| ProductCache.CacheAgreesUnlessOvertaken | src/lib/core-client/branch.client.ts:122-137 | The same in every run in which no refill lands after an event of its product was handled |
| ProductCache.RefillAgreesIffTimely | src/lib/core-client/branch.client.ts:122-137 | A refill agrees with core if and only if each fetched field is current or an event about it is pending |
| ProductCache.OnlyOvertakenRefillsAreLate | src/lib/core-client/branch.client.ts:122-137 | In every run a refill that is not in time was overtaken by a handled event of its product |
| ProductCache.OvertakenRefillLosesAPrice | src/lib/core-client/branch.client.ts:122-137 | An overtaken refill leaves the old price with an empty backlog |
| ProductCache.NamedEntriesAreWhole | src/lib/core-client/branch.client.ts:107-114 | In every run an entry with a name lacks no field, so reading by the name is right |
| ProductCache.WriteBackAgrees | src/lib/core-client/branch.client.ts:129-137 | Writing back rows just read keeps the cache in agreement, whichever writes fail |
| ProductCache.ProductsMean | src/lib/core-client/branch.client.ts:91-140 | The answer holds each requested product that can be found once, with the whole cached entry or core's row, and nothing else |
| ProductCache.LookupFills | src/lib/core-client/branch.client.ts:119-137 | After a lookup exactly the entries that were missing or nameless, were requested and are in core are core's rows, but for lost writes, and all other entries are as before |
| ProductCache.AllFoundMeansDistinct | src/app/order/service/order.service.ts:100-106 | As many answers as requests if and only if the requests are pairwise distinct and all found |
| ProductCache.CoreDataCache.GetBranchProducts | src/lib/core-client/branch.client.ts:91-140 | Deduplication, cache pass, request and write-back answer each requested product that can be found once, with the cached entry if it has a name and core's name, price, stock and availability otherwise, and leave exactly the rows read in the cache |
| ProductCache.CoreDataCache.UpsertProductStock | src/app/order/service/core-data-cache.service.ts:77-85 | Stock and availability are set as far as the event carries them; name, price and all other entries stay |
| ProductCache.CoreDataCache.HandleEvent | src/app/order/service/core-data-cache.service.ts:42-52 | Handling the oldest event is one step of the machine: it sets the fields the event carries and leaves the others and all other entries; an event without ids changes no entry |
| Placement.StoredOrdersAreSound | src/app/order/service/order.service.ts:100-169 | An order is stored only past all guards, its products distinct and each observed available with enough stock; branch, payment method, status, fees and every line with its observed price are as requested, subtotal is the sum of price times quantity, total adds delivery fee and 1000; order.placed is written exactly for cash; the caller hears of it exactly when the commit is answered |
| Placement.StoredIffItFits | src/app/order/service/order.service.ts:134-232 | An order is stored if and only if all guards hold, the reservation is answered, every number of the order asked for fits its column with positive quantities, and the transaction commits; it is answered exactly if the commit is |
| Placement.RefusalsFollowTheGuards | src/app/order/service/order.service.ts:68-144 | Orders, outbox and stock change only if branch and restaurant are active and take orders, the payment method is allowed, the address is the caller's, all products were found and none lacks; each refusal is answered if and only if its own guard fails and the earlier ones hold, and the items out of stock are reported as they are |
| Placement.StockIsConservedIffNoLeak | src/app/order/service/order.service.ts:138-232 | Free stock plus held quantities is unchanged for every product, whatever the outcome, if and only if it is none of three leaks: a reservation applied with its reply lost, a failed transaction whose undo was not applied exactly once, a committed one with its reply lost whose undo was applied at all |
| Placement.UndoIsAppliedOncePerLostReply | src/lib/core-client/core-client.ts:20-38 | The retry loop applies the undo once for every lost reply and once more if the last attempt is answered, up to three times, and exactly once if and only if it is answered with none lost or fails with one |
| Placement.LostReplyUndoesTwice | src/lib/core-client/branch.client.ts:150-158 | One or two lost replies followed by an answer give the stock back two or three times |
| Placement.OrderPlacement.Retry | src/pkg/utils/retry.ts:8-25 | The loop stops at an answer or a refusal and after the last attempt, with the outcome and the number of applications specified |
| Placement.StockIsConserved | src/app/order/service/order.service.ts:138-232 | Over any run of such placements no stock appears or disappears |
| Placement.OrderPlacement.CheckItems | src/app/order/service/order.service.ts:108-132 | The loop splits the items into lines that fit and items that do not, in order |
| Placement.OrderPlacement.PlaceOrder | src/app/order/service/order.service.ts:68-232 | State and outcome are those specified, in every branch; each refusal in exactly its case, and no change without all guards |

## Left out

- Routing, controllers, request validation, tokens, sockets, logging and dependency injection: no state to prove about.
- Redis, PostgreSQL, RabbitMQ and the payment provider themselves: replaced by steps on stores; keys may expire at any
  moment, so lifetimes are not modelled.
- Signature checks and JSON encoding: parameters or identity; the comma-joined candidate list is taken as a list.
- StatusWrites.WriteIsLawfulIffStillAllowed: the write of a delivery or capture and the rest of its transaction are one
  step, since the row stays locked from one to the other; what else they book is in `Finance` and `Webhook`.
- StatusService.OrderStore.UpdateStatus: the stamp is the time of the write's step.
- WebhookService.PaymentWebhookService.ProcessEvent: from the update of the session to the commit is one step, so a payout row
  with the event's reference that commits in between is seen; the note of an error on the event row is part of it.
- FinanceService.Service.Deliver: a transaction that has to wait for locks is given up after the other calls' steps;
  waiting on and resuming is covered by the machine.
- FinanceService.Service.RecordPayout: a lock or insert that has to wait is given up after the other calls' steps;
  waiting on and resuming is covered by the machine.
- Settlement.OwnerKeepsTheCredit: assumes a customer who is not the restaurant's owner; paying oneself nets to zero.
- AssignmentService.Service.TryAssign: the candidate search reads presence keys in one step.
- Archival.NoRowIsLost: takes unique keys as unique across both stores, since `Archival.ClashLosesARow` shows what happens
  otherwise; orders are keyed by id alone. The Redis lock around a sweep is left out because safety does not need it.
- ProductCache.CacheAgreesThroughItsBacklog: a handler's read, patch and write are one step, and names and images,
  which no event carries, are not claimed.
- ProductCache.CoreDataCache.GetBranchProducts: concurrent cache reads are taken in order.
- Placement.StoredOrdersAreSound: an entry without a price, which no lookup gives (`ProductCache.NamedEntriesAreWhole`),
  counts as 0.
- Placement.StockIsConservedIffNoLeak: takes core as honouring the idempotency key of a reservation.
- Placement.OrderPlacement.PlaceOrder: ends before the payment session of an online order; the branch that compensates
  a failed session reuses a transaction that has already committed. Region resolution is left out.
- Money.RoundingLossIsBounded: the model's sums are exact integers.
- The customer cancel window: its guard cannot be reached.
- Cursor pagination, the busy set's accuracy, refunds, listings, the permission and response caches, HTTP idempotency,
  partition scripts, migrations and the scheduler's set of running jobs (each worker of the
  assignment machine is one such slot): thin reads or single checks.
