# Order fulfilment saga: model and proofs

The service takes an order over HTTP, announces it through a transactional
outbox, and lets queue workers drive it through a saga: reserve stock at the
nearest warehouse that can fill the whole order, charge the customer, complete,
or unwind. A reconciliation sweeper competes with the workers for orders that
got stuck. Workers, sweepers and relays share no lock. They coordinate through

* compare-and-swap status transitions,
* a movement ledger with at most one RESERVE and one RELEASE row per order,
  written in the same transaction as the stock change,
* a charge ledger with at most one row per order,
* leases that expire (sweeper claims, outbox claims),
* a unique index on (customer, idempotency key).

This project models those mechanisms in Dafny and proves what they guarantee in
every interleaving, and which hypotheses the stronger guarantees need.

## Structure

Two layers meet.

**Protocol layer.** A `World` holds the collections and an unbounded map of
actors, each standing before its next operation (`Pc`). Every single database
operation, every transaction and each part of a provider call is one `Step`, and
so are deliveries, crashes, redeliveries, lost jobs, top-ups and the passing of
time. `Enabled` and `Apply` define the steps, `ValidRun` and `Run` the runs.
`SagaProtocol` is the saga; `OutboxProtocol` and `AcceptProtocol` do the same
for relays and for requests that place orders. Inductive invariants
(`SagaInvariant.Inv`, `OutboxProtocol.Inv`, `AcceptProtocol.Inv`) are proved
per step and lifted to runs.

**Imperative layer.** Classes hold the collections as fields and methods contain
the loops of the source: the reserve transaction with its rollback, the release,
the candidate loop, `process`, the sweep, `tick`, `acceptOrder`, `awaitWinner`.
Before every operation an arbitrary `schedule` lets other actors take any steps,
and operations may fail. A ghost history records the steps taken; `Valid()` says
that it is a run of the protocol ending in the present, and every method ensures
that it only adds to it (`Within`, `Onward`; a longer `trace` for relays and
requests). So every theorem about runs applies to what is there after a call,
and across calls. The `ensures` of a method say in addition what it achieves,
with interference and (`Calm`, `Quiet`) without; where they speak of what an
operation found, they name the moment of the history at which it ran.

| files | content |
|---|---|
| `OrderStatus.dfy` | the state machine and its rank |
| `StockLedger.dfy`, `InventoryService.dfy` | stock rows, movement ledger, the two transactions, warehouse choice |
| `Charges.dfy` | the provider's ledger |
| `OrdersRepository.dfy` | compare-and-swap and lease |
| `SagaProtocol.dfy`, `SagaInvariant.dfy`, `SagaTheorems.dfy` | the saga as a protocol, its invariant, what follows unconditionally |
| `Obligations.dfy`, `Stranding.dfy`, `Conservation.dfy`, `Money.dfy`, `Leases.dfy` | who returns stock, when it is lost, where units are, who was charged, when claims are possible |
| `Witnesses.dfy` | concrete runs in which each hypothesis fails alone |
| `History.dfy`, `Deliveries.dfy`, `Rankings.dfy` | recorded histories, how long a delivery can take, and which warehouses it tried |
| `Backend.dfy`, `Operations.dfy`, `OrderSagaProcessor.dfy`, `Reconciliation.dfy` | the worker and the sweeper, executed under interference |
| `OutboxRepository.dfy`, `OutboxProtocol.dfy`, `OutboxTheorems.dfy`, `OutboxRelay.dfy` | the outbox and its relays |
| `Fingerprint.dfy`, `AcceptProtocol.dfy`, `AcceptTheorems.dfy`, `OrdersService.dfy` | idempotent acceptance |
| `Totals.dfy`, `Wrappers.dfy` | finite sums over maps; `Option` and `Outcome` |

## Main results

* **Stock.** At every step each row holds what was supplied minus reserved plus
  released units and is never negative. Once all orders are terminal, supply
  equals stock plus units sold plus units stranded.
* **Stranding.** FAILED does not mean that nothing is reserved. Held stock is
  lost exactly when its order is doomed: FAILED, not released, with no delivery
  left and no sweeper between failing it and releasing. A step dooms an order
  exactly when the queue drops, or death takes, the last of those. The queue
  giving up alone does not: a PENDING order is still swept. Under hypothesis R
  nothing is ever doomed, and stock at the end is supply less sales.
* **Nearest warehouse.** Under any interference a delivery fails its order for
  lack of stock only if every warehouse of the order was short at the moment of
  the ranking or of its own attempt; otherwise the warehouse it chose sufficed at
  its attempt, and every nearer one was short in that sense.
* **Deliveries.** An undisturbed delivery takes its order to the end that stock,
  customer and provider determine: FAILED exactly if no warehouse can serve it,
  else COMPLETED exactly if the customer is found and pays.
* **Money.** PAYMENT_AUTHORIZED and COMPLETED always mean one successful charge
  of the order's total, recorded on the order. That an unwound order was not
  charged holds over a run exactly when no step of it is one of two harmful
  operations; hypotheses C and M exclude both, and then takings equal revenue.
* **Recovery.** Whatever fails and interferes, a sweep visits every status and
  goes on after each handler that throws; only a claim that throws ends it, and an
  order whose handler did not throw has left its status for good. Undisturbed, it
  brings the oldest stale orders, as many as a batch allows, to the end that the
  provider's record demands and counts each of them once, as what it became.
* **Outbox.** No event is ever lost, any number of relays notwithstanding. The
  attempt limit and the doubling backoff, exact to the millisecond, hold with one
  relay at a time.
* **Acceptance.** Two orders are the same exactly when their requests agree on
  customer and key; orders and events are in bijection; successful answers name
  the same order exactly when their requests agree on customer and key.

The hypotheses, each a property of a run:

* **R** (`Obligations.QueueNeverGivesUp`): a delivery that does not return
  normally is handed out again.
* **C** (`Money.CustomerFound`): the customer lookup of a worker finds somebody.
* **M** (`Money.NoChargeRace`): while a sweeper that found no charge has not yet
  settled its order, no payment request for that order is on its way.

Where comments and code disagree, the model follows the code:

* `src/orders/order-status.ts:15,29` call PENDING and FAILED "nothing reserved".
  A reserve can commit on either side of the transition
  (`Witnesses.GivingUpStrandsStock`).
* COMPENSATED orders can have been charged
  (`Witnesses.VanishedCustomerPaysForNothing`, `Witnesses.LateChargeIsUnwound`).
* `src/orders/outbox/outbox.repository.ts:37-40` says that a relay that crashes
  after every claim runs out of attempts. The claim does not look at the limit
  (`OutboxTheorems.CrashesNeverRunOut`).
* `markDispatched`, `markRetry` and `markDead` are plain updates, so a slow relay
  takes DISPATCHED back (`OutboxTheorems.StaleRelayReverts`).

## Assumptions

Single-document updates are atomic; a transaction commits entirely or not at
all, with unique indexes enforced; the queue delivers at least once; clocks are
one monotone clock; the hash behind the fingerprint is injective; only this
service uses order ids as charge keys. How the warehouses rank by distance from an
order's shipping coordinates is an arbitrary sequence, frozen with the order. The
stock that somebody else's ranking query saw, the outcome of customer lookups,
declines and transaction ids are arbitrary choices of a step.

## Model

| member | source | states |
|---|---|---|
| OrderStatuses.WalksStayReachable | src/orders/order-status.ts:4-13 | following edges of the state machine never leaves the states reachable from the start |
| OrderStatuses.ReachableByWalk | src/orders/order-status.ts:4-13 | every reachable status is reached by a walk along edges, so reachability is exactly the reflexive transitive closure of the diagram |
| OrderStatuses.LeavingRaisesRank | src/orders/order-status.ts:9-13 | a status that was left is never reached again, and a terminal one is not left |
| StockLedger.DebitExact | src/inventory/inventory.service.ts:163-175 | a successful sequence of conditional decrements takes exactly the requested units from each row, touches no other, and never makes a row negative |
| StockLedger.DebitIffCovers | src/inventory/inventory.service.ts:163-175 | the decrements all match if and only if each row covers the total asked of it, repeated products included |
| StockLedger.CreditExact | src/inventory/inventory.service.ts:119-125 | a release adds exactly the released units to each existing row |
| StockLedger.CreditUndoesDebit | src/inventory/inventory.service.ts:119-125 | crediting what was debited restores the whole stock map |
| StockLedger.ReserveReleaseRoundTrip | src/inventory/inventory.service.ts:86-196 | a release after a reserve restores the stock exactly, and repeating either changes nothing |
| StockLedger.ReserveKeepsLedger | src/inventory/inventory.service.ts:153-177 | a reserve keeps the ledger equation per row and never oversells |
| StockLedger.ReleaseKeepsLedger | src/inventory/inventory.service.ts:107-125 | a release keeps the ledger equation; it misses no row that its reserve matched |
| StockLedger.AddKeepsLedger | src/mockdata/mockdata-stock.service.ts:31-41 | a top-up adds to supply and stock alike |
| StockLedger.AddExact | src/mockdata/mockdata-stock.service.ts:31-41 | a top-up raises its own row by exactly its quantity, creating it if need be, and no other row |
| StockLedger.StockIsSupplyLessHeld | src/inventory/inventory.service.ts:41-48 | stock is supply less what unreleased reserves hold |
| StockLedger.PreFilterAgrees | src/inventory/inventory.service.ts:233-239 | for orders without repeated products the pre-filter accepts a warehouse if and only if the transaction would |
| StockLedger.PreFilterTooGenerous | src/inventory/inventory.service.ts:233-239 | with a repeated product the pre-filter can accept what the transaction refuses |
| StockLedger.FitLooksSufficient | src/inventory/inventory.service.ts:227-239 | the pre-filter never drops a warehouse that could serve the order, whatever the order |
| StockLedger.FirstFitIsNearest | src/inventory/inventory.service.ts:65-75 | trying the filtered candidates in order finds the nearest warehouse able to fill the order, or shows that there is none |
| StockLedger.CandidatesFilter | src/inventory/inventory.service.ts:198-231 | the candidates are exactly the warehouses that look sufficient, in the order in which they were ranked |
| Inventories.InventoryService.TryReserveAt | src/inventory/inventory.service.ts:146-196 | the loop over items with its abort is all or nothing: one RESERVE row and every decrement, or stock and ledger as before |
| Inventories.InventoryService.ReleaseForOrder | src/inventory/inventory.service.ts:86-139 | the loop gives back the reserved items once; without a reserve, or after a release, it changes nothing and says so |
| Inventories.InventoryService.FindCandidateWarehouses | src/inventory/inventory.service.ts:198-231 | keeps exactly the warehouses that look sufficient, in order of distance |
| Inventories.InventoryService.AddUnits | src/mockdata/mockdata-stock.service.ts:31-41 | an upserting increment: one row rises by exactly the quantity and no other row changes |
| Charges.ChargeCollection.Create | src/mockdata/mockdata-psp.service.ts:54-65 | inserts only when the key is new; a duplicate changes nothing |
| Orders.OrdersRepository.Transition | src/orders/orders.repository.ts:66-84 | writes status and patch and stamps the order if and only if it is in the expected status; what the patch does not name stays; the lease is dropped and the claim count kept; other orders never change |
| Orders.OrdersRepository.ClaimStale | src/orders/orders.repository.ts:95-116 | leases a stale unleased order of the status with the earliest update, and finds none only if there is none; the lease ends leaseMs from now, the count of attempts rises by one, the update time stays |
| SagaInvariant.StepKeepsInv | src/orders/order-saga.processor.ts:38-156 | every step of every actor, sweepers and crashes included, keeps status, ledgers and what actors believe in agreement |
| SagaInvariant.RunKeepsInv | src/orders/order-saga.processor.ts:38-156 | the agreement holds in every state of every run, and no order goes back |
| SagaInvariant.BeliefsAreStable | src/orders/order-saga.processor.ts:41-45 | what an actor relies on stays true under any later evolution of its order, however stale its last read |
| SagaInvariant.ActLeavesOthers | src/orders/order-saga.processor.ts:20-24 | an operation touches only its own order and its own actor |
| SagaTheorems.StatusAgreesWithMovements | src/orders/order-status.ts:14-31 | in every reachable state the status determines which movements exist; a release copies its reserve; the warehouse is recorded exactly after PENDING and matches the ledger |
| SagaTheorems.StatusAgreesWithCharges | src/orders/order-saga.processor.ts:116-147 | PAYMENT_AUTHORIZED and COMPLETED have one successful charge of the total, and the recorded payment is a success under the order's key with that charge's transaction over the order's total; a payment recorded on an unwound order is the declined charge, field by field; PENDING and FAILED have no charge; any charge has a reserve |
| SagaTheorems.ChargedOnce | src/mockdata/mockdata-psp.service.ts:33-65 | a stored charge is never changed or replaced in any continuation |
| SagaTheorems.EveryResultIsTheCharge | src/mockdata/mockdata-psp.service.ts:33-102 | every payment result an actor carries, however it got it, gives the stored charge's transaction and amount under the order's key, and success exactly if the charge succeeded |
| SagaTheorems.LedgerExplainsStock | src/inventory/inventory.service.ts:107-177 | at every step stock equals supplied minus reserved plus released units and is never negative |
| SagaTheorems.StatusOnlyClimbs | src/orders/orders.repository.ts:52-65 | between any two moments of a run a status stays or moves to a reachable one of higher rank; terminal is final |
| SagaTheorems.AcceptedForGood | src/orders/schemas/order.schema.ts:61-66 | an order keeps items, ranking and total for good; what is reserved for it are its items, and what is charged is its total |
| SagaTheorems.SupplyIsTopUps | src/mockdata/mockdata-stock.service.ts:31-41 | along any run the supply of a shelf is what was there at first plus every top-up of it |
| SagaTheorems.FailureCodeNamesTheCause | src/orders/order-saga.processor.ts:102-146 | a failure code appears exactly when the actor it stands for wins its transition: OUT_OF_STOCK a worker that found no warehouse, RECONCILED_TIMEOUT the sweeper of a PENDING order, RECONCILED_NO_CHARGE a sweeper whose lookup found no charge, PAYMENT_DECLINED whoever learnt of a decline or of a missing customer |
| SagaTheorems.WinnersRecord | src/orders/order-reconciliation.service.ts:138-181 | who wins a transition records the payment it learnt about, declined or not, and the warehouse it reserved; nobody else touches either |
| Obligations.StepKeepsObligations | src/orders/order-saga.processor.ts:53-68 | a step leaves an order that owes a release without a delivery if and only if it drops its last one |
| Obligations.ObligationsMetIff | src/orders/order-saga.processor.ts:53-68 | over whole runs every order that owes a release has a delivery throughout if and only if no step drops the last one |
| Obligations.ReachableObligationsMet | src/orders/order-saga.processor.ts:99-110 | under R every order that holds stock without having moved on has a live or to-be-redelivered delivery |
| Obligations.OwnStepDescends | src/orders/order-saga.processor.ts:46-68 | each operation of a delivery of a FAILED order brings it nearer to the release, whatever others did |
| Obligations.RemainingPathReleases | src/orders/order-saga.processor.ts:53-68 | left alone such a delivery returns after finitely many operations with nothing left to release |
| Obligations.AloneIsARun | src/orders/order-saga.processor.ts:46-87 | being left alone is one of the runs of the protocol |
| Stranding.StepDoomsIff | src/orders/order-reconciliation.service.ts:113-131 | a step leaves a FAILED order holding stock with nobody to return it if and only if the queue drops, or death takes, its last rescuer: a delivery, or the sweeper between failing it and releasing |
| Stranding.NoneDoomedIff | src/orders/order-reconciliation.service.ts:113-131 | over whole runs no order is ever doomed if and only if no step takes away a last rescuer |
| Stranding.RedeliveryNeverDooms | src/orders/order-saga.processor.ts:53-68 | under R no step ever takes away a last rescuer |
| Stranding.DoomedForGood | src/orders/order-reconciliation.service.ts:60-63 | short of a further delivery of its job nothing that happens ever helps a doomed order, because FAILED is never swept |
| Stranding.PendingIsRescuable | src/orders/order-reconciliation.service.ts:113-131 | a PENDING order that holds stock needs no delivery: sweepers get to it in the end, whatever is older, fail it and return the stock |
| Stranding.StrandedIff | src/orders/order-reconciliation.service.ts:113-131 | stock held by an order that did not move on can come back without a further delivery if and only if the order is not doomed |
| Conservation.SettledStock | src/orders/order-saga.processor.ts:59-66 | once all orders are terminal, supply is stock plus units sold plus units stranded, with no hypothesis |
| Conservation.StockAtRest | src/orders/order-saga.processor.ts:46-87 | with all orders terminal and nobody on the way to a release, the orders that lost stock are exactly the doomed ones, and with none doomed stock is supply less what completed orders took |
| Conservation.ConservationUnlessDoomed | src/orders/order-reconciliation.service.ts:113-131 | in every run with any number of orders and actors in which no step takes away a last rescuer, stock at the end equals supply minus quantities of completed orders |
| Conservation.EndToEndConservation | src/orders/order-saga.processor.ts:46-87 | under R the same, as soon as all orders are terminal and no delivery is live |
| Money.StepKeepsMoney | src/orders/order-saga.processor.ts:116-147 | a step charges for an unwound order, or unwinds a charged one, if and only if it is one of two harmful operations |
| Money.MoneyIff | src/orders/order-reconciliation.service.ts:138-181 | over whole runs money agrees with outcomes if and only if no step is harmful |
| Money.DisciplinedNeverHarmful | src/orders/order-reconciliation.service.ts:138-181 | C and M together exclude both harmful operations |
| Money.BooksBalance | src/orders/order-saga.processor.ts:135-146 | with all orders terminal and money in agreement, the successful charges are exactly those of completed orders, amount by amount |
| Money.EndToEndMoney | src/orders/order-reconciliation.service.ts:138-181 | under C and M takings equal the revenue of completed orders once all orders are terminal |
| Leases.RunKeepsLeases | src/orders/orders.repository.ts:95-116 | every lease is explained by the last claim, and time does not go back |
| Leases.ClaimsAreSpaced | src/orders/orders.repository.ts:76-116 | two claims of one order are at least the shorter of lease and staleness bound apart, although transitions clear the lease |
| Leases.NeverUnclaimable | src/orders/orders.repository.ts:95-116 | a live order is claimable once the later of staleness bound and last lease has passed, and then some claim of its status succeeds |
| Leases.LeaseFields | src/orders/orders.repository.ts:66-116 | a step leaves an order alone, or claims it (counting the attempt, setting the lease, keeping status and update time), or moves its status (freeing the lease, stamping the order, keeping the count) |
| Leases.AttemptsAreClaims | src/orders/orders.repository.ts:106 | along any run an order's sweepAttempts are the claims of it |
| Leases.FreshOrdersAreLeftAlone | src/orders/orders.repository.ts:97-101 | no order is claimed within staleAfterMs of its acceptance |
| Witnesses.GivingUpStrandsStock | src/orders/order-reconciliation.service.ts:113-131 | without R a reachable state has only terminal orders, no actor, a doomed order and two units gone |
| Witnesses.GivingUpAloneDoesNot | src/orders/order-reconciliation.service.ts:113-131 | the queue dropping the last delivery does not strand stock by itself: in a reachable state a PENDING order holds stock without any delivery, nothing is doomed and the order can be rescued; in another the sweeper has done so and the shelf is full again |
| Witnesses.VanishedCustomerPaysForNothing | src/orders/order-saga.processor.ts:117-126 | without C, and with no sweeper and no lost job, a COMPENSATED order is charged |
| Witnesses.LateChargeIsUnwound | src/orders/order-reconciliation.service.ts:139-181 | without M, and with every customer found and no lost job, an order is unwound that was charged in between |
| Histories.HistoryIsARun | src/orders/order-saga.processor.ts:38-87 | what the executed methods record is a run of the protocol |
| Histories.EarlierEvolves | src/orders/orders.repository.ts:52-65 | between any two moments of a recorded history orders, movements and charges stay and statuses only climb |
| Deliveries.WhatIsLeft | src/orders/order-saga.processor.ts:41-45 | reads and attempts of a delivery use up what the rank of its order left it, whatever others do in between |
| Deliveries.DeliveryIsShort | src/orders/order-saga.processor.ts:46-86 | between two moments of the life of a delivery it reads its order at most four times and attempts at most three transitions, fewer if the order has come further |
| Backends.Backend.Since | src/orders/order-saga.processor.ts:41-45 | since any earlier moment of the history orders have only moved on and what was charged then still is |
| Backends.Backend.Begin | src/orders/order-saga.processor.ts:41-45 | before an operation anybody may act and the operation may throw; the actor itself stays where it was or its job goes back to the queue |
| Operations.ReadOrder | src/orders/order-saga.processor.ts:47-53 | the read returns the stored order and decides what the delivery does next |
| Operations.RankWarehouses | src/inventory/inventory.service.ts:198-231 | the candidates are those of the order's own ranking on the stock at the recorded moment |
| Operations.TryNearest | src/inventory/inventory.service.ts:67-72 | one attempt at the nearest candidate left; it reserved, or was short, exactly on the stock of the recorded moment at which it ran |
| Operations.TransitionOrder | src/orders/orders.repository.ts:66-84 | won or lost, afterwards the order is no longer in the status the transition started from, and its rank has risen |
| Operations.InsertCharge | src/mockdata/mockdata-psp.service.ts:54-78 | stores the charge unless one exists; an answer gives the stored charge's transaction and amount; the answer may be lost although the charge stands; undisturbed the charge succeeds exactly if the provider does not decline |
| Operations.FindWinningCharge | src/mockdata/mockdata-psp.service.ts:59-65 | after a lost insert race the winner's charge is found |
| Operations.ReleaseStock | src/inventory/inventory.service.ts:86-139 | performs the release transaction under interference; afterwards the order owes nothing |
| Operations.LookupCharge | src/mockdata/mockdata-psp.service.ts:81-84 | the sweeper learns the stored charge's transaction, amount and outcome, and learns of none only if none is stored; it throws exactly if the operation fails |
| Operations.ClaimOrder | src/orders/orders.repository.ts:95-116 | a sweeper claims the order that was stale and updated longest ago at the moment of its claim and becomes the actor handling it; it finds none only if none is stale; a claim that throws claims nothing |
| Rankings.TriedFindsNearest | src/inventory/inventory.service.ts:67-74 | if every attempt found the stock the ranking saw, the outcome is the nearest warehouse that can fill the order, or none can |
| Rankings.NearerWereShort | src/inventory/inventory.service.ts:49-75 | whatever the interference, every warehouse ranked before the chosen one was short when the ranking looked or when its own attempt ran; and so were all if none is chosen |
| Rankings.FindPursuit | src/inventory/inventory.service.ts:65-74 | in any run a delivery that is still trying candidates has ranked the warehouses of its order and found those before the rest short, one attempt after the other |
| Rankings.GivesUpForLackOfStock | src/orders/order-saga.processor.ts:102-110 | in any run a delivery about to fail its order for lack of stock has ranked its warehouses, and each was short when the ranking looked or at its own attempt |
| Rankings.RecordsTheNearest | src/orders/order-saga.processor.ts:91-101 | in any run a delivery about to record a warehouse found the order reserved there, or took the nearest warehouse that was not short in that sense |
| Rankings.EveryDeliveryChoosesRightly | src/orders/order-saga.processor.ts:89-114 | both of that hold at every moment of a delivery, whatever others do |
| SagaProcessors.OrderSagaProcessor.TryReserveAt | src/inventory/inventory.service.ts:146-196 | reserved only if the candidate sufficed at the recorded moment of the attempt, short only if it did not; a lost race answers with the original warehouse |
| SagaProcessors.OrderSagaProcessor.TryCandidates | src/inventory/inventory.service.ts:67-74 | the attempts are moments of the history, one after the other; the chosen warehouse sufficed at its own and every earlier candidate was short at its own |
| SagaProcessors.OrderSagaProcessor.ReserveForOrder | src/inventory/inventory.service.ts:49-75 | the chosen warehouse sufficed at the moment of its attempt and every nearer one was short at the moment of the ranking or of its own attempt; undisturbed it is the nearest that fills the order, and none is chosen exactly when none does; an order already reserved gets its warehouse back with stock unchanged |
| SagaProcessors.OrderSagaProcessor.Reserve | src/orders/order-saga.processor.ts:89-114 | when it returns the order has left PENDING for good, whoever moved it; undisturbed it returns, the order is FAILED as out of stock exactly if none of the order's warehouses can serve it, and otherwise STOCK_RESERVED at the nearest that can, or at the one it is reserved at already |
| SagaProcessors.OrderSagaProcessor.AuthorizePayment | src/mockdata/mockdata-psp.service.ts:33-79 | a delivered result, whether prior, own or a winner's, gives the stored charge's transaction and amount under the order's key, and success exactly if it succeeded; undisturbed it is a success exactly if the recorded charge succeeded or, with none recorded, the provider does not decline |
| SagaProcessors.OrderSagaProcessor.Authorize | src/orders/order-saga.processor.ts:116-147 | when it returns the order has left STOCK_RESERVED for good; undisturbed it is PAYMENT_AUTHORIZED exactly if the customer is found and pays, else COMPENSATING |
| SagaProcessors.OrderSagaProcessor.Complete | src/orders/order-saga.processor.ts:149-151 | when it returns the order has left PAYMENT_AUTHORIZED for good; undisturbed it is COMPLETED |
| SagaProcessors.OrderSagaProcessor.Compensate | src/orders/order-saga.processor.ts:153-156 | when it returns the order has left COMPENSATING for good; undisturbed it is COMPENSATED |
| SagaProcessors.OrderSagaProcessor.Finish | src/orders/order-saga.processor.ts:53-68 | a delivery that finds a FAILED order leaves no unreleased reserve behind; other terminal orders are untouched |
| SagaProcessors.OrderSagaProcessor.Process | src/orders/order-saga.processor.ts:38-87 | under arbitrary interference it adds to the history at most four reads and three attempted transitions of its own and lets nothing go back; it gives up for lack of stock only if every warehouse of the order was short in time, and records none but the nearest that was not; it returns with the order terminal and nothing left to release. Undisturbed it returns, no other order moves, and its order is FAILED exactly if no warehouse can serve it, else COMPLETED exactly if the customer is found and the recorded or new charge goes through, else COMPENSATED |
| Reconciliation.OneMoreSettled | src/orders/order-reconciliation.service.ts:79-98 | handling one claimed order adds it to the settled ones and its count to the counters |
| Reconciliation.OldestNext | src/orders/orders.repository.ts:95-116 | what a claim picks next is the oldest stale order left, so the settled orders are always the oldest |
| Reconciliation.BatchIsOver | src/orders/order-reconciliation.service.ts:79-85 | when the batch is full or a claim finds nothing, as many stale orders are settled as the batch allows, the oldest first |
| Reconciliation.StillThere | src/orders/order-reconciliation.service.ts:60-63 | sweeping the earlier statuses leaves the stale orders of the later ones as they were, and adds none |
| Reconciliation.NextSwept | src/orders/order-reconciliation.service.ts:60-63 | sweeping one more status keeps what the pass has achieved for the earlier ones |
| Reconciliation.BatchCovers | src/orders/order-reconciliation.service.ts:79 | if all orders of a status are stale and one batch covers them, the batch settles all of them |
| Reconciliation.AllSwept | src/orders/order-reconciliation.service.ts:60-63 | if every live order is stale and the batches are large enough, after the four statuses every live order has its verdict, every terminal one is untouched, and the settled orders are the live ones |
| Reconciliation.TallySettles | src/orders/order-reconciliation.service.ts:17-23 | markedFailed, completed and compensated add up to the number of settled orders |
| Reconciliation.OrderReconciliationService.ResolvePending | src/orders/order-reconciliation.service.ts:113-131 | undisturbed it fails the order and raises markedFailed alone; disturbed it raises it only for an order that is FAILED |
| Reconciliation.OrderReconciliationService.ReturnStock | src/orders/order-reconciliation.service.ts:124-130 | closes the window in which a reserve can have slipped in: when it returns, a reserve has its release |
| Reconciliation.OrderReconciliationService.ResolveReserved | src/orders/order-reconciliation.service.ts:138-181 | undisturbed it completes the order if and only if the provider has a successful charge, compensates it otherwise, and counts exactly that |
| Reconciliation.OrderReconciliationService.FinishPaid | src/orders/order-reconciliation.service.ts:141-162 | a recorded charge leads to COMPLETED, counted as authorized and completed |
| Reconciliation.OrderReconciliationService.UnwindUnpaid | src/orders/order-reconciliation.service.ts:165-180 | without a successful charge the order ends COMPENSATED, counted as compensated |
| Reconciliation.OrderReconciliationService.ResolveAuthorized | src/orders/order-reconciliation.service.ts:184-188 | undisturbed it completes the order and raises completed alone; disturbed only for an order that is COMPLETED |
| Reconciliation.OrderReconciliationService.ReleaseAndSettle | src/orders/order-reconciliation.service.ts:195-200 | undisturbed it compensates the order and raises compensated alone; disturbed only for an order that is COMPENSATED |
| Reconciliation.OrderReconciliationService.HandleClaimed | src/orders/order-reconciliation.service.ts:87-97 | errors rises by exactly one if and only if the handler's last operation failed; if none did the order has left its status for good, whatever interferes; a counter rises only for an order that is in the status it stands for |
| Reconciliation.OrderReconciliationService.SweepOne | src/orders/order-reconciliation.service.ts:80-97 | throws if and only if the claim, its first operation, fails; otherwise it handled the order it claimed, or none was claimable |
| Reconciliation.OrderReconciliationService.SweepState | src/orders/order-reconciliation.service.ts:74-99 | whatever fails and interferes, it goes on until it has claimed and handled a full batch, or a claim finds nothing, and throws if and only if a claim does; errors rises by the number of handlers that threw. Undisturbed, it settles exactly the oldest stale orders, as many as the batch allows, each reaches its verdict, no other changes, and the counters rise by exactly their counts |
| Reconciliation.OrderReconciliationService.Sweep | src/orders/order-reconciliation.service.ts:56-72 | whatever fails and interferes, it visits the four statuses in turn, each until its batch is full or a claim finds nothing, throws if and only if a claim does, and reports exactly the handlers that threw; disabled it does nothing. Undisturbed, of each status the oldest stale orders, as many as a batch allows, end where the record of the provider demands, no other changes, and each is counted once as what it became; if the batches cover all live orders, these are all |
| Outbox.OutboxRepository.ClaimNext | src/orders/outbox/outbox.repository.ts:41-55 | claims a due event with the earliest retry time, burning an attempt, and finds none only if none is due |
| Outbox.OutboxRepository.MarkDispatched | src/orders/outbox/outbox.repository.ts:57-61 | sets DISPATCHED whatever the row says, and keeps the claim |
| Outbox.OutboxRepository.MarkRetry | src/orders/outbox/outbox.repository.ts:64-74 | puts the row back to NEW with a wait and without claim, whatever it says |
| Outbox.OutboxRepository.MarkDead | src/orders/outbox/outbox.repository.ts:77-81 | sets FAILED and drops the claim, whatever the row says |
| OutboxProtocol.StepKeepsInv | src/orders/outbox/outbox-relay.service.ts:75-111 | every step of any relay keeps rows truthful: DISPATCHED was queued, FAILED used up its attempts, attempts count claims |
| OutboxProtocol.RunKeepsInv | src/orders/outbox/outbox-relay.service.ts:55-111 | rows stay truthful in every run; events, attempts and queued jobs are never taken back |
| OutboxTheorems.NeverLost | src/orders/outbox/outbox-relay.service.ts:55-111 | from its publication on an event is NEW, or its job was queued, or its attempts reached the limit, under any interleaving and crash |
| OutboxTheorems.NeverStuck | src/orders/outbox/outbox.repository.ts:44-52 | a NEW event is due if and only if retry time and claim timeout have passed, and then some claim succeeds |
| OutboxTheorems.DispatchedRevertsIff | src/orders/outbox/outbox.repository.ts:57-81 | DISPATCHED is taken back by exactly one kind of step, the error branch of a relay still at work on the event |
| OutboxTheorems.StepKeepsOneRelayInv | src/orders/outbox/outbox-relay.service.ts:94-109 | with one relay per event at a time, attempts, losses and waits stay in balance, the waits exactly |
| OutboxTheorems.WaitsAddUp | src/orders/outbox/outbox-relay.service.ts:104-106 | doubling waits add up to backoff times a power of two less one |
| OutboxTheorems.DispatchBounds | src/orders/outbox/outbox-relay.service.ts:94-109 | with one relay at a time attempts never exceed the limit plus losses; without losses FAILED comes after exactly the limit, and the k-th try no earlier than the doubled waits allow |
| OutboxTheorems.WaitsExactly | src/orders/outbox/outbox-relay.service.ts:104-108 | with one relay at a time and no dispatch lost, a waiting event is due exactly backoffMs times two to the attempts less one after its last dispatch was settled |
| OutboxTheorems.DispatchedForGood | src/orders/outbox/outbox.repository.ts:57-61 | with one relay at a time an event dispatched and let go never changes again |
| OutboxTheorems.CrashesNeverRunOut | src/orders/outbox/outbox.repository.ts:37-55 | for every number of tries there is a run of claims and crashes that reaches it with the event still NEW |
| OutboxTheorems.StaleRelayReverts | src/orders/outbox/outbox.repository.ts:57-81 | a slow relay whose claim expired turns DISPATCHED back into NEW, or into FAILED at the limit |
| OutboxRelays.OutboxBackend.SettleFailure | src/orders/outbox/outbox-relay.service.ts:94-109 | the error branch declares the event dead exactly from the limit on, and otherwise puts it back to wait exactly backoffMs times two to the attempts less one from now |
| OutboxRelays.OutboxRelayService.Dispatch | src/orders/outbox/outbox-relay.service.ts:75-111 | true means queued and marked, false means settled as dead or waiting; in a quiet system the event is not due again however it ended |
| OutboxRelays.OutboxRelayService.Tick | src/orders/outbox/outbox-relay.service.ts:55-73 | only adds to the run, so events, attempts and queued jobs stay; does nothing while a pass runs; whatever fails it reports exactly the dispatches it saw through; in a quiet system it claims no event twice, and with nothing failing dispatches as many due events as the batch allows |
| Fingerprint.TrimIff | src/orders/orders.service.ts:29 | the trimmed address is the one text without outer white space that becomes the original by adding white space around it |
| Fingerprint.TrimKeepsInk | src/orders/orders.service.ts:29 | trimming takes white space from both ends only, and never a letter, digit or punctuation mark |
| Fingerprint.SortSorts | src/orders/orders.service.ts:30-32 | sorting orders the lines by product and keeps exactly the same lines |
| Fingerprint.SortedIsUnique | src/orders/orders.service.ts:30-32 | lines without repeated products have only one sorted arrangement |
| Fingerprint.SameFingerprintIff | src/orders/orders.service.ts:21-35 | requests with distinct products have the same canonical form if and only if customer and trimmed address agree and the lines are permutations |
| Fingerprint.RepeatedProductsShowOrder | src/orders/dto/create-order.dto.ts:36-43 | without distinct products the order of lines shows in the fingerprint |
| AcceptProtocol.StepKeepsInv | src/orders/orders.service.ts:67-138 | every step of any request keeps index, events, holders and answers true; orders, events and answers are never taken back |
| AcceptProtocol.RunKeepsInv | src/orders/orders.service.ts:67-138 | and so does every run |
| AcceptProtocol.NoDuplicateEvent | src/orders/orders.service.ts:114-122 | an order being inserted never has an event yet, so the duplicate-event error cannot arise |
| AcceptTheorems.IndexedByCustomerAndKey | src/orders/schemas/order.schema.ts:105-108 | the unique index holds a scope exactly if a request of that customer under that idempotency key wrote an order, and open transactions hold it likewise |
| AcceptTheorems.OneOrderPerKey | src/orders/schemas/order.schema.ts:105-108 | in every run, orders of two requests are the same if and only if the requests agree on customer and idempotency key |
| AcceptTheorems.OrdersMatchEvents | src/orders/outbox/outbox.repository.ts:14-27 | orders and ORDER_CREATED events are in bijection in every reachable state |
| AcceptTheorems.SuccessfulAnswersAgree | src/orders/orders.service.ts:67-138 | successful answers name the same order if and only if their requests agree on customer and key, and then these requests have the same content |
| AcceptTheorems.RefusedWroteNothing | src/orders/orders.service.ts:114-127 | a request that was rejected, mismatched, gave up, or was answered with the order of another wrote no order |
| AcceptTheorems.OnlyCommitsWrite | src/orders/orders.service.ts:90-113 | orders and events change exactly in commits, and then by one order and its one event together |
| AcceptTheorems.ReplaysAreFaithful | src/orders/orders.service.ts:70-74 | once an order is committed every later answered request of its customer under its key is told that order if and only if its content is the same, and else that the key was reused |
| AcceptTheorems.OperationsRunOut | src/orders/orders.service.ts:67-138 | every operation except a transaction restart brings a request closer to its answer |
| AcceptTheorems.WaitsFiveTimes | src/orders/orders.service.ts:181-194 | in any run a request waits for at most five reads, and gives up after exactly five |
| AcceptTheorems.RunKeepsLoser | src/orders/orders.service.ts:114-127 | a request that lost the race for its key has written nothing and never will |
| OrdersServices.OrderStore.InsertOrder | src/orders/orders.service.ts:92-107 | inserts if and only if the key is neither committed nor held, and shows nothing to others yet |
| OrdersServices.OrderStore.CommitBoth | src/orders/orders.service.ts:90-113 | order, key and exactly one event become visible at once |
| OrdersServices.OrdersService.ResolveReplay | src/orders/orders.service.ts:196-201 | answers with the stored order, or refuses different content |
| OrdersServices.OrdersService.AwaitWinner | src/orders/orders.service.ts:181-194 | reads at most five times with doubling delays, gives up after five reads and 620 ms exactly, and under any interference has written no order |
| OrdersServices.OrdersService.Draft | src/orders/orders.service.ts:76-87 | the request is unprocessable exactly if validation says so, whatever interferes, and otherwise goes on with a fresh id |
| OrdersServices.OrdersService.WithTransaction | src/orders/orders.service.ts:88-127 | ends committed, with a duplicate key, or with an error; undisturbed it commits exactly when the key is free |
| OrdersServices.OrdersService.AcceptOrder | src/orders/orders.service.ts:67-138 | the answer is true of the stored orders, and no order, event or answer goes back. Undisturbed, a request whose customer has an order under its key gets that order if the content is the same and else key reuse, and writes nothing; any other is never told key reuse: it writes one new order and its one event, or is unprocessable exactly if validation says so, or another request of the customer holds the key |
| OrdersServices.OrdersService.AcceptTwice | src/orders/orders.service.ts:161-166 | a client that repeats a request is told the same order, whatever others do in between |

## Left out

- OrdersServices.OrdersService.AcceptOrder: restarts of a transaction after transient errors are bounded by a parameter, where the driver stops after a time limit.
- OrdersServices.OrdersService.AcceptOrder: prices, coordinates and catalogue lookups are one verdict; `totalAmount` is fixed at acceptance.
- Operations.TransitionOrder: an operation of a worker or sweeper that fails does so before it takes effect; that it took effect and only its answer was lost is the crash right after it. Only the provider's insert and the outbox requests distinguish the two.
- Fingerprint.SameFingerprintIff: compares canonical data instead of SHA-256 digests of JSON text; identifiers are numbers and `localeCompare` is their order.
- Operations.ClaimOrder: a claim that throws has not taken the lease; one that took it and lost its answer is a claim followed by the death of the sweeper.
- OutboxRelays.OutboxRelayService.Tick: `pollIntervalMs` and the timer that calls the pass are not modelled.
- The protocols are joined by name only: a commit in `AcceptProtocol` is `Publish` in `OutboxProtocol` and `AcceptOrder` in `SagaProtocol`, and a queued job is `Deliver`. `SagaProtocol` allows more: deliveries of any order at any time.
- `chargedAt` (different between a first answer and a replay), error texts, `lastError`, `dispatchedAt` and logging.
- Fractional and negative top-up quantities; money is in integer minor units and the price fold is not modelled.
- `$geoNear`: how warehouses rank by distance is an arbitrary sequence, frozen with the order; warehouses that appear or move after acceptance do not change it.
- `requeueForAggregate`: nothing calls it.
- Internals of MongoDB and BullMQ: write conflicts inside a transaction appear as restarts, job retries as redeliveries; queue deduplication by job id is not relied upon.
- HTTP clients, controllers, DTO validation beyond distinct products, listing and pagination: plumbing.
- Skew between clocks of several instances.
