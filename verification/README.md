# EventFlow Commerce: order saga, stock ledger, event-sourced payments, delivery

A Dafny model of what keeps an order, its stock and its payment consistent across the order,
inventory and payment services without a distributed transaction, and of the outbox, Kafka and
retry code that connects them. `dafny verify dfyconfig.toml` checks the whole project.

## How it is built

Three layers, each tied to the next by proof.

1. **Tables as functions.** What each SQL transaction does to its tables is a function:
   `StockLedger` (inventory), `Orders` (orders, sagas, outbox), `EventStore` and `PaymentService`
   (payment events, read model, snapshots). Their laws are proved there, in `ReserveLaws`, `ReserveTables`
   and `StockFrames`. `OrderRuns` does the same for the order service's operations, and states what
   their answers mean; `HeldLines` says what an order holds in terms of its own lines.
2. **Objects.** `Inventory`, `OrderService`, `PaymentRepository`, `Payment`, `RelayBatch`,
   `NotificationConsumer` and `Subscriber` hold classes whose methods run the source's loops over
   tables updated in place, with rollback, and are proved against those functions.
3. **Runs.** `SagaSystem` puts every committed transaction and remote call of the three services
   into one transition system: handlers are program counters with the copy of the order they once
   read, any handler may crash between any two steps, a remote call may be lost before or after its
   effect and may take effect late, and the bus delivers any outbox row at any time, in any order,
   any number of times, under any event id. `SagaInvariant`, `SagaFrames` and `SagaSteps` prove its
   invariant, and `SagaShares` what each step does to each order's share of the state. `SagaTheorems`,
   `SagaDelivery`, `SagaLiveness`, `SagaCancel`, `SagaDrain` and `SagaEndToEnd` draw the conclusions,
   `SagaOverlap` those for overlapping deliveries; `ServiceRefinement` shows that the objects' methods
   are runs of it. `Sessions`, `Charging`,
   `Relay` and `NotificationConsumer` do the same for concurrent payment writers, overlapping charges of
   one order, outbox relays and the notification consumer.

The invariant is stated per order on that order's share of all tables (`SagaInvariant.ViewOf`), so
that a step is checked against the one order it touches; a handler in flight survives the steps of
others because of what they may do to its order (`Evolves`).

## Assumptions

- A SQL transaction is one atomic step. For inventory this means that operations on one order do not
  overlap: the release and commit queries take no lock
  (services/inventory/internal/repository/stock.go:224-228). Reads the source makes outside its
  transaction (services/order/internal/service/order.go:170, 203, 242) are separate steps.
- In the saga system `ProcessPayment` is atomic per order: its lookup and its save are not interleaved
  with another call for the same order (services/payment/internal/service/payment.go:37-69). What happens
  otherwise is stated exactly in `Charging`: the order gets a second payment if and only if two
  deliveries look up before any Save has landed and both their Saves land.
- A product has one inventory row. The schema allows one per warehouse
  (services/inventory/migrations/000002_add_reservations.up.sql:4), but the updates reach all of them;
  `Warehouses.ConservedIff` shows that conservation needs a single row.
- A consumer group that has committed no offset begins at the log end. The Go reader asks for that
  (shared/libs/go/events/kafka.go:100); the Python consumer sets nothing
  (services/notification/notification/consumer.py:80-87), and this is its client's default.
- Payments, refunds and releases are requested only by the three services themselves.
  `FailAfterPayment` is called with the payment of the order it cancels.
- An identifier drawn for a new order or payment is fresh and not the nil UUID.
- A `SELECT` without `ORDER BY` returns rows in table order; only the order in which an event lists
  its items depends on it.

## Where the code and its documentation differ

The model follows the code. Where a theorem says exactly when the documented claim holds, or gives the
run that breaks it, it is named.

- A redelivered order.ready_for_payment is said never to charge the gateway twice
  (services/payment/internal/service/payment.go:32-35). One delivered after the other does if and only if
  the Save after the first charge failed: `PaymentService.ChargedTwiceIff`. In any
  overlap it is called twice if and only if two deliveries look up before any Save has landed and both
  reach their call: `Charging.CalledTwiceIff`.
- A message whose handler fails while the dead letter topic is unavailable is said to stay
  uncommitted for redelivery (shared/libs/go/events/kafka.go:188-192). The loop goes on to the next
  message, and the next commit covers it; and a group that never committed restarts at the log end:
  `Subscriber.PromiseKeptIff`, `Subscriber.PromiseBroken`.
- The notification consumer stops at a failed dead letter write so that the message is met again. Before
  the group's first commit it is not: `NotificationRestarts.NothingSkippedIff`.
- It is said to route failures to a dead letter topic after retries
  (services/notification/notification/consumer.py:95). For a message that is JSON but no object the first
  failure ends the loop, since reporting it raises (services/notification/notification/consumer.py:145-148):
  a group that has committed never gets past it, however often it restarts
  (`NotificationConsumer.NeverPast`).
- A `FailAfterPayment` that failed part way is left for the caller to retry
  (services/order/internal/service/order.go:237-240), and a refund is said to be idempotent
  (services/order/internal/client/payment.go:39-42). A second refund is refused, so a call completes if and
  only if the payment is still captured: `SagaCancel.CancelCompletesIff`. After a refund that landed
  without being heard of, a retry is possible, its refund conflicts, and no run whatever closes the order:
  `SagaCancel.UnheardRefundIsForever`, `SagaCancel.ClosesIff`.
- Publishing partitions by aggregate id so that its events are handled in order
  (shared/libs/go/events/kafka.go:149-150), but the writer balances by load
  (shared/libs/go/events/kafka.go:84). The bus is therefore modelled without any order.
- Consumers are said to recognise an event the relay publishes twice by its id
  (docs/architecture/adr/002-transactional-outbox.md:22-25). The relay sets no event id, so each publish
  of a row carries a new one, and the processed marks do not recognise it. What makes redelivery
  harmless is the state checks: `SagaDelivery.RedeliveryChangesNothing` holds for fresh ids too.
- Snapshots are taken every ten events (services/payment/internal/eventstore/snapshot.go:15), but a payment
  never has more than three: `Sessions.NoSnapshotIsEverStored`. Snapshot loading is proved anyway,
  for arbitrary event lists.
- `Release` followed by `Reserve` for the same order and product fails on the unique index, whatever
  the row's status: `ReserveLaws.NoReserveAfterRelease`.

## Model

| member | source | states |
|---|---|---|
| `SagaSteps.Reachable` | services/order/internal/service/order.go:148-287 | In every state reachable by any interleaving of handler steps, crashes, lost, unanswered and late calls, redeliveries and reorderings, every order's share of all tables, every handler in flight with its stale copy, the ledger and the payment streams satisfy the system invariant |
| `SagaSteps.StepKeeps` | services/order/internal/service/order.go:148-287 | Every single step of the system (create handler, the three payment handlers, late releases and refunds, deliveries to the three consumers) keeps the invariant |
| `SagaTheorems.StockSafety` | services/order/internal/service/order.go:169-287 | In every reachable state a saved order has exactly one reservation row for each product of its lines, of the quantity of the first line that names it, all of one status, and no other rows; a confirmed order's rows are all reserved or all sold, with no release recorded or in flight; those of a payment_failed or cancelled one are all released and none was sold |
| `SagaTheorems.LedgerSafety` | services/inventory/internal/repository/stock.go:49-220 | For products with one inventory row, in every reachable state of the whole system the stock ledger is conserved and the movement log rebuilds its counters |
| `SagaTheorems.MoneySafety` | services/order/internal/service/order.go:169-271 | In every reachable state an order has at most one payment; a confirmed order's is captured, unrefunded, of exactly the order total and not being refunded; a payment_failed order's was declined; a cancelled order's was refunded in full |
| `SagaTheorems.PaymentTerms` | services/payment/internal/consumer/orders.go:84-98 | In every reachable state a payment carries its order's customer, currency and total; the total is the wrapped sum of the lines, each its price times its quantity; and only a total of at most 1,000,000 cents is ever captured |
| `SagaTheorems.OrderAndSagaAgree` | services/order/internal/service/order.go:148-287 | In every reachable state status and saga form one of the six allowed pairs, the number of orders-topic outbox rows of an order is its version, order.confirmed was announced exactly when it is confirmed and order.cancelled exactly when it is payment_failed or cancelled, never twice |
| `SagaTheorems.OutboxTellsOrder` | services/order/internal/service/order.go:317-339 | In every reachable state the orders-topic rows of an order are, in full and in order, created, ready for payment and how it closed, each with the order's own terms and the status it had reached |
| `SagaTheorems.ClosedForGood` | services/order/internal/service/order.go:306-313 | Over any continuation of any run a closed order never changes, and an order whose saga began compensating is never confirmed |
| `SagaInvariant.HandlerStable` | services/order/internal/service/order.go:170-287 | A handler working on a stale copy stays sound whatever other steps do to its order |
| `SagaDelivery.OrdersExact` | services/order/internal/consumer/payments.go:49-88 | The exact effect, from read to commit, of one undisturbed delivery of a payment event: nothing when the row is settled or the event marked, otherwise precisely the closing of the order |
| `SagaDelivery.PaymentExact` | services/payment/internal/consumer/orders.go:58-98 | An undisturbed delivery to the payment service changes nothing when a payment exists, nothing can be charged or the event is marked, and otherwise leaves the order with a payment |
| `SagaDelivery.StockExact` | services/inventory/internal/consumer/orders.go:47-76 | A delivery to inventory is the release or commit its kind calls for, and nothing when the order has nothing reserved or the event is marked |
| `SagaDelivery.CleanSettles` | services/order/internal/consumer/payments.go:49-88 | One clean delivery of any outbox row leaves its consumer nothing more to do for that row |
| `SagaDelivery.SettledForGood` | services/order/internal/service/order.go:306-313 | A settled row stays settled along every run |
| `SagaDelivery.RedeliveryChangesNothing` | services/order/internal/consumer/payments.go:49-88 | After one clean delivery of any outbox row, a redelivery at any later time, after any other steps and under the same or a fresh event id, changes no order, saga, stock table, payment stream or outbox |
| `SagaOverlap.SettledStep` | services/order/internal/consumer/payments.go:49-88 | Once a row is settled, no single step of any delivery of it changes anything: not of a handler started before, nor of a release it asked for and that is executed late |
| `SagaOverlap.OverlapChangesNothing` | services/order/internal/consumer/payments.go:49-88 | After one clean delivery of a row, at any later time of any run, no step of any other delivery of it, however interleaved, changes an order, saga, stock table, payment stream or outbox |
| `SagaOverlap.RowTouchesNoOther` | services/order/internal/consumer/payments.go:49-88 | No step of any delivery of a payment event touches another order's share of any table |
| `SagaOverlap.OverlapIsOneDelivery` | services/order/internal/service/order.go:169-228 | However many deliveries of a payment event overlap, crash and start again, with steps of other rows and other orders in between, by the time the row is settled the order's share of all tables is exactly what one clean delivery leaves |
| `SagaOverlap.CleanIsOverlap` | services/order/internal/consumer/payments.go:49-88 | A clean delivery of a payment event is itself a run of steps for its row, and settles it |
| `SagaLiveness.FailPaymentRestarts` | services/order/internal/service/order.go:202-228 | From any reachable state, however FailPayment was interrupted before, one clean run ends at payment_failed and compensated, nothing reserved, and order.cancelled enqueued exactly once ever |
| `SagaLiveness.DeclineWasAnnounced` | services/order/internal/service/order.go:188-201 | While a declined payment's order is compensating, a payment.failed row to restart it exists |
| `SagaCancel.CancelCompletesIff` | services/order/internal/service/order.go:241-271 | An undisturbed FailAfterPayment from any reachable open state ends with the order cancelled, its stock returned and its payment refunded in full if and only if the payment is still captured and a reason is given; otherwise it leaves the saga compensating and no order, stock row, payment or outbox row changed |
| `SagaCancel.ClosesIff` | services/order/internal/service/order.go:241-271 | An open order whose payment was refunded can still be closed if and only if a handler that heard of the refund is at work; otherwise every continuation of every run leaves it pending_payment and compensating |
| `SagaCancel.UnheardRefundIsForever` | services/order/internal/client/payment.go:39-62 | From any reachable state in which an order could be cancelled, a refund executed but not heard of leaves a state in which FailAfterPayment can be called again and no continuation whatever closes the order |
| `SagaShares.StepIsLocal` | services/order/internal/service/order.go:148-287 | Every step of the system acts for one order and leaves every other order's share of all tables as it is |
| `SagaShares.StepShare` | services/order/internal/service/order.go:148-287 | What any step may do to the order it acts for, once past pending: a closing of it, the checkpoint, a release, a sale, a refund of its captured payment or its first payment, each with its condition, and nothing else |
| `SagaDrain.DeliveryProgress` | services/order/internal/service/order.go:148-228 | Every failure-free delivery with work to do strictly lowers its order's phase, keeps the order on the track its total calls for, and touches no other order |
| `SagaDrain.Drains` | services/order/internal/service/order.go:148-228 | Of any failure-free deliveries, at most three per order have an effect |
| `SagaDrain.QuietIsReachable` | services/order/internal/service/order.go:148-228 | From any state failure-free deliveries can be continued until no outbox row has work left |
| `SagaDrain.QuietMeansDone` | services/order/internal/service/order.go:148-228 | An order with a phase left always has an outbox row whose delivery does work |
| `SagaDrain.EveryOrderConcludes` | services/payment/internal/gateway/client.go:88-93 | From any reachable state, an order with a positive total awaiting its first charge ends, once failure-free deliveries run dry, confirmed with its lines sold if the total is at most 1,000,000 cents, and otherwise payment_failed with its lines returned |
| `SagaDrain.FaultyRunsConclude` | services/payment/internal/gateway/client.go:88-93 | The same for any run at all, with crashes, overlaps, reorderings, redeliveries and lost or late calls: once no row has work left the order has the outcome its total calls for, provided nobody cancels it and the breaker is closed when it is charged |
| `SagaEndToEnd.CheckoutConcludes` | services/order/internal/handler/orders.go:128-190 | From any reachable state, an order checked out with its stock at hand and a positive total can be driven by failure-free deliveries to the outcome its total calls for |
| `SagaDrain.FreeOrderIsNeverPaid` | services/payment/internal/domain/payment.go:36-59 | An order with total zero never gets a payment and never leaves pending or pending_payment |
| `Orders.CompensationIsFinal` | services/order/internal/saga/state.go:23-44 | Along any walk of accepted saga transitions, after compensating come only compensating and compensated |
| `Orders.WalkLeads` | services/order/internal/saga/state.go:23-44 | Where walks of accepted transitions from each state can end |
| `Orders.LeadsWalk` | services/order/internal/saga/state.go:23-44 | And that each of those ends is reached by one |
| `Orders.MarkPendingExact` | services/order/internal/service/order.go:148-164 | The transaction commits if and only if the copy is current and pending and no saga exists, and then leaves exactly the order at pending_payment, its saga awaiting payment and one order.ready_for_payment; otherwise which of its conditions failed decides the error |
| `Orders.ConfirmExact` | services/order/internal/service/order.go:169-190 | It commits if and only if the copy is current, pending_payment and the saga neither compensating nor closed, and then leaves exactly the confirmed order, the completed saga and one order.confirmed; otherwise which of its conditions failed decides the error |
| `Orders.CompensateExact` | services/order/internal/service/order.go:276-287 | The checkpoint commits if and only if the saga may compensate or already does, and changes only the saga |
| `Orders.FinishExact` | services/order/internal/service/order.go:219-227 | A compensation closes if and only if the copy is current and the saga compensating, and leaves exactly the closed order, the compensated saga and one order.cancelled; otherwise which of its conditions failed decides the error |
| `Orders.SaveOrderExact` | services/order/internal/repository/order.go:30-74 | An order is stored, with order.created, if and only if its id is new and no amount of it is out of range |
| `Orders.NewOrder` | services/order/internal/domain/order.go:50-96 | Accepts exactly the valid orders; every stored line is the line asked for with its price times its quantity, and the stored total is the sum of the lines, all modulo 2^64 |
| `Orders.RunningIsWrapped` | services/order/internal/domain/order.go:59-82 | Adding with wrap-around at every line is wrapping the true sum once |
| `Orders.TotalExactIff` | services/order/internal/domain/order.go:59-82 | The stored total is the true sum if and only if that sum fits in 64 bits |
| `OrderService.OrderService.Save` | services/order/internal/repository/order.go:30-74 | Inserts the order, its items and order.created together or leaves all tables as they were |
| `OrderService.OrderService.Transition` | services/order/internal/repository/saga.go:50-69 | Moves the saga along the graph, or reports why not and changes nothing |
| `OrderService.OrderService.UpdateStatus` | services/order/internal/repository/order.go:172-189 | Changes status and version only of the row whose version is the expected one |
| `OrderService.OrderService.ApplyTransition` | services/order/internal/service/order.go:317-339 | Applies a transition to the copy the handler read and enqueues its event, only if the row is still at the copy's version |
| `OrderService.OrderService.MarkPendingPaymentAfterCreate` | services/order/internal/service/order.go:132-164 | Done if and only if the order was pending without a saga, and then it awaits payment; otherwise nothing changed |
| `OrderService.OrderService.ConfirmPayment` | services/order/internal/service/order.go:169-190 | Done if and only if the order was closed before or is now confirmed with its saga completed; a failure changes nothing |
| `OrderService.OrderService.FailPayment` | services/order/internal/service/order.go:202-228 | Done if and only if the order was closed before or is now payment_failed with its saga compensated and nothing reserved; and exactly what is left after every other way it can end |
| `OrderRuns.FailAnswer` | services/order/internal/service/order.go:202-228 | What each error of FailPayment means: no such order or saga, a saga that cannot compensate, a release without an answer, or a status that cannot fail; and that a release executed leaves nothing reserved, heard of or not |
| `OrderService.OrderService.FailAfterPayment` | services/order/internal/service/order.go:241-271 | Done if and only if the order was closed before or is now cancelled with its saga compensated, nothing reserved and the payment refunded; and exactly what is left after every other way it can end, including the payment stream |
| `OrderRuns.CancelEffects` | services/order/internal/service/order.go:241-271 | A refund or release without an answer is an error even when it was executed, and what was executed shows in the payment and the stock |
| `OrderRuns.CancelError` | services/order/internal/service/order.go:241-271 | An error of FailAfterPayment is that of the first of its conditions that does not hold |
| `OrderService.PaymentsConsumer.Handle` | services/order/internal/consumer/payments.go:49-88 | An event becomes marked if and only if it is a payment outcome and its order was closed before or is now closed as the outcome calls for; and the answer is done exactly for marked and ignored events |
| `OrderService.OrdersHandler.Create` | services/order/internal/handler/orders.go:128-190 | What each outcome of reserve, save and release leaves, as the create function whose meaning the next rows state |
| `OrderRuns.CreateTells` | services/order/internal/handler/orders.go:128-190 | For a request with a fresh id Create is done if and only if the request is valid, every call was answered, its products are in stock and its order can be stored; and then the order awaits payment with the lines, prices and currency asked for, it was announced as created and as ready, each product's available counter is lower by the quantity ordered and no other changed, and the order's reservation rows are exactly its lines |
| `OrderRuns.CreateFailed` | services/order/internal/handler/orders.go:160-190 | When it fails: the first line short of stock decides between insufficient stock and no such product, with nothing changed; a failed or unheard save whose release is executed leaves every counter as it was; and the error for every other end |
| `ServiceRefinement.ConsumerIsDelivery` | services/order/internal/consumer/payments.go:49-88 | In every reachable state the consumer method, however its release call goes, leaves the same orders, sagas, outbox, stock and processed marks as its steps in the transition system; with an answered release these are a clean delivery |
| `ServiceRefinement.CreateIsRun` | services/order/internal/handler/orders.go:128-190 | The create function, whatever its remote calls do, leaves the tables and stock that a run of the create handler's steps leaves |
| `ServiceRefinement.CancelIsRun` | services/order/internal/service/order.go:241-271 | FailAfterPayment, whatever its remote calls do, leaves the tables, stock and payments that a run of its handler's steps leaves |
| `ServiceRefinement.ChargeIsConsume` | services/payment/internal/consumer/orders.go:58-98 | A charge step of the system is the payment consumer's handling of that row |
| `ReserveLaws.ReserveExact` | services/inventory/internal/repository/stock.go:49-120 | Reserve succeeds if and only if the first occurrence of every product not already reserved for the order is admissible against the tables as they were, and then reserves and announces exactly those lines |
| `ReserveTables.ReserveRefusal` | services/inventory/internal/repository/stock.go:66-120 | A failed Reserve names the reason of the first item of its product, not yet reserved, that the tables refuse: not found if and only if the product has no row, insufficient if and only if it has one with less available, invalid values, or a constraint |
| `ReserveTables.AcceptedIff` | services/inventory/internal/repository/stock.go:49-120 | Reserve succeeds if and only if the tables admit every item that is the first of its product and not yet reserved |
| `ReserveTables.ReserveTakes` | services/inventory/internal/repository/stock.go:49-120 | A successful Reserve moves exactly those items' quantities from available to reserved, adds one row and one movement for each, announces them in one event, and changes nothing else |
| `ReserveLaws.ReserveIdempotent` | services/inventory/internal/repository/stock.go:58-64 | Repeating a successful Reserve succeeds and changes no table |
| `ReserveLaws.ReserveKeeps` | services/inventory/internal/repository/stock.go:49-120 | Reserve keeps conservation, counters equal to row sums and the rebuildable log |
| `ReserveLaws.StockConservation` | services/inventory/internal/repository/stock.go:49-220 | For products with one inventory row, after every history of Reserve, Release and CommitInTx: available plus reserved plus committed is the initial stock, quantity_reserved is the sum of the reserved rows, no counter is negative, and the movement log rebuilds both counters |
| `Warehouses.ConservedIff` | services/inventory/internal/repository/stock.go:66-70 | A product's stock is conserved, and every outstanding reservation can be released and sold, over every history if and only if it has at most one inventory row or no stock: the updates name the product and not the warehouse |
| `Warehouses.TwoWarehouses` | services/inventory/internal/repository/stock.go:66-70 | With five pieces in each of two warehouses, reserving two takes two from both |
| `Warehouses.OneRowIsCounters` | services/inventory/internal/repository/stock.go:66-70 | With one row the updates are those of the ledger's counters |
| `StockFrames.ReleaseUndoesReserve` | services/inventory/internal/repository/stock.go:190-220 | Releasing what an order reserved restores every counter, leaves its rows released, and logs and announces exactly the items it had reserved |
| `StockFrames.CommitSellsReserve` | services/inventory/internal/repository/stock.go:158-186 | Committing what an order reserved takes exactly its items out of stock for good, and a later release gives nothing back |
| `ReserveLaws.NoReserveAfterRelease` | services/inventory/migrations/000002_add_reservations.up.sql:17-17 | Once an order's product was released, reserving it again for the same order fails as a whole |
| `StockLedger.ReleaseKeeps` | services/inventory/internal/repository/stock.go:190-220 | Release keeps conservation and the rebuildable log |
| `StockLedger.CommitKeeps` | services/inventory/internal/repository/stock.go:158-186 | CommitInTx keeps conservation and the rebuildable log |
| `StockLedger.SetStatusRowsOf` | services/inventory/internal/repository/stock.go:190-220 | Releasing or committing an order touches no other order's rows |
| `Inventory.ReservedSuffices` | services/inventory/internal/repository/stock.go:190-220 | The constraint on quantity_reserved can never fire while an order's rows are given up one by one |
| `Inventory.StockRepository.Reserve` | services/inventory/internal/repository/stock.go:49-120 | The loop under rollback is the ledger's all-or-nothing Reserve, whose acceptance, refusals and effect ReserveTables states over the requested items |
| `Inventory.StockRepository.HasReservedRow` | services/inventory/internal/repository/stock.go:284-295 | Finds a row of the order and product in status reserved if and only if there is one |
| `Inventory.StockRepository.ReservedItems` | services/inventory/internal/repository/stock.go:224-247 | Returns the order's reserved items in table order |
| `Inventory.StockRepository.GiveUp` | services/inventory/internal/repository/stock.go:158-220 | The loop over one order's reserved items adds up to one movement per item, counters shifted by each product's total, and its rows alone restatused |
| `Inventory.StockRepository.Release` | services/inventory/internal/repository/stock.go:124-147 | Returns every reserved item of the order, keeps the ledger valid, and announces them if there are any |
| `Inventory.StockRepository.CommitInTx` | services/inventory/internal/repository/stock.go:158-186 | Takes every reserved item of the order out of the counters for good and keeps the ledger valid |
| `Inventory.OrdersConsumer.Handle` | services/inventory/internal/consumer/orders.go:47-76 | A new event is marked together with the release of a cancelled order or the commit of a confirmed one; a marked event and any other kind change no stock |
| `Payment.SnapshotPlusTail` | services/payment/internal/eventstore/repository.go:50-76 | A snapshot at any point of any event list plus the events after it is the whole list replayed, even when events were appended after the snapshot was read |
| `Payment.LegalState` | services/payment/internal/domain/payment.go:111-131 | What any legal stream folds into: fields fixed by the first event, status by the last, version its length |
| `Payment.CommandAnswer` | services/payment/internal/domain/payment.go:62-109 | What a command answers, told from the history: a conflict when it comes at the wrong time, invalid without its text, and otherwise the event with the payment's id, that text and, for a refund, the full amount |
| `Payment.CommandsAreLifecycle` | services/payment/internal/domain/payment.go:62-109 | In a legal history every accepted command keeps it legal, a refund is accepted exactly when the payment is captured, and a charge result exactly when it is just initiated |
| `Payment.Aggregate.Apply` | services/payment/internal/domain/payment.go:111-131 | The new state is the fold of the event into the old one, at the next version, with the event last among the pending ones |
| `Payment.Aggregate.Execute` | services/payment/internal/domain/payment.go:62-109 | An accepted command applies exactly its event; a refused one changes nothing |
| `EventStore.AppendExact` | services/payment/internal/eventstore/store.go:37-69 | Append wins if nobody advanced the stream, then stores exactly versions 1..n of the longer stream and touches no other; otherwise it reports a conflict |
| `EventStore.ProjectExact` | services/payment/internal/projection/payment_status.go:24-47 | The upserts of one Save leave the aggregate's status and version, keep the row's identity, and the last transaction id seen |
| `EventStore.RowsTellStreams` | services/payment/internal/projection/payment_status.go:24-47 | Every read model row tells its stream: the terms of the first event, the status of the last, and the transaction of the processed event, completed exactly when there is one |
| `EventStore.SaveKeepsStatus` | services/payment/internal/eventstore/repository.go:93-101 | After a winning Save every read model row is the fold of its stream |
| `EventStore.SaveSays` | services/payment/internal/eventstore/repository.go:93-185 | After a winning Save its payment's row tells the whole stream, and each pending event has one outbox row, in order, with the payment's terms, its status after the Save, and the event's own transaction id or reason |
| `EventStore.SaveKeeps` | services/payment/internal/eventstore/repository.go:80-129 | A winning Save appends and announces exactly the pending events and keeps streams contiguous and legal, the read model and the snapshots |
| `EventStore.SaveExact` | services/payment/internal/eventstore/repository.go:80-129 | Save commits if and only if the stream is where the aggregate was loaded; otherwise it reports a conflict |
| `EventStore.NoSnapshotDue` | services/payment/internal/eventstore/snapshot.go:15-49 | A payment's version is between one and three, so Save never reaches the snapshot threshold |
| `Sessions.LoadTracks` | services/payment/internal/eventstore/repository.go:50-76 | A load with writers between its two reads yields exactly the aggregate its whole stream describes |
| `Sessions.EveryRunIsSafe` | services/payment/internal/eventstore/repository.go:80-129 | Under any interleaving of load, command and save sessions, every stored stream has versions 1..n, is a legal lifecycle of at most three events with at most one refund, and its read model row tells it |
| `Sessions.NeverRewritten` | services/payment/internal/eventstore/store.go:37-69 | Later in any run every stream extends what it was |
| `Sessions.SaveWinsIff` | services/payment/internal/eventstore/repository.go:80-129 | A session's Save appends exactly its events if nobody advanced the stream since its load, and only a session that hears of it drops them; otherwise every table and session is as it was |
| `Sessions.NoSnapshotIsEverStored` | services/payment/internal/eventstore/snapshot.go:15-49 | No run ever stores a snapshot |
| `PaymentRepository.Repository.FindByOrderID` | services/payment/internal/eventstore/store.go:73-94 | Finds a payment if and only if one was initiated for the order, and one of that order |
| `PaymentRepository.Repository.LatestSnapshot` | services/payment/internal/eventstore/snapshot.go:51-72 | The newest snapshot of the aggregate, if it has any |
| `PaymentRepository.Repository.Load` | services/payment/internal/eventstore/repository.go:50-76 | The aggregate its whole stream folds into, or not found exactly when it has no stream |
| `PaymentRepository.Repository.Save` | services/payment/internal/eventstore/repository.go:80-129 | Wins if and only if the stream did not move, then extends it by the pending events and clears them; a loser changes no table |
| `PaymentRepository.Service.ProcessPayment` | services/payment/internal/service/payment.go:36-77 | Charges only an order without a payment, and leaves the stream, the gateway calls and the answer the use case calls for |
| `PaymentRepository.Service.RefundPayment` | services/payment/internal/service/payment.go:81-95 | Loads, refunds and saves as one extension of the stream, or reports why not and changes nothing |
| `PaymentRepository.OrdersConsumer.Handle` | services/payment/internal/consumer/orders.go:58-98 | An event becomes marked if and only if it asks for a charge, its order then has a payment and the mark does not fail; the answer is done exactly for marked events and those of another kind |
| `PaymentService.ProcessKeeps` | services/payment/internal/service/payment.go:36-77 | Never a second payment for an order; the payment is captured exactly when the breaker is closed and the amount within the limit, else declined |
| `PaymentService.MarkedIff` | services/payment/internal/consumer/orders.go:58-98 | Over the streams: which events handling marks, and that its answer is done exactly for those and the ignored ones |
| `PaymentService.ProcessAnswer` | services/payment/internal/service/payment.go:36-77 | The answer of ProcessPayment and the exact stream it leaves in each case: an existing payment, an invalid request, a Save that fails, an open breaker, an amount over 1,000,000 cents, and a capture |
| `PaymentService.ProcessDoneIff` | services/payment/internal/service/payment.go:36-77 | Done if and only if the order had a payment or has one just captured; a decline is reported if and only if one was just stored as declined; in every other case the order has no payment |
| `PaymentService.TransactionsDistinct` | services/payment/internal/gateway/client.go:88-93 | Two payments never share a transaction id |
| `PaymentService.RefundKeeps` | services/payment/internal/service/payment.go:81-95 | A refund succeeds if and only if the payment exists, is captured and a reason is given, and keeps every stream legal |
| `PaymentService.RefundAnswer` | services/payment/internal/service/payment.go:81-95 | Not found, conflict or invalid, told from the stream, and otherwise one refund of the full amount with the reason given |
| `PaymentService.GatewayCalls` | services/payment/internal/service/payment.go:32-77 | Over any redeliveries one after the other the gateway is called once per delivery until a Save succeeds and never after |
| `PaymentService.ChargedTwiceIff` | services/payment/internal/service/payment.go:32-35 | Redeliveries one after the other charge the gateway twice if and only if the first charge's Save failed |
| `Charging.CallsExact` | services/payment/internal/service/payment.go:36-77 | However deliveries of one order overlap, with lookup, gateway call and Save as separate steps, the gateway is called once for each lookup that found no payment, less those still to come and those that crashed first |
| `Charging.CalledTwiceIff` | services/payment/internal/service/payment.go:32-35 | The gateway is called twice if and only if two deliveries look up before any Save has landed and both reach their call |
| `Charging.LooksIff` | services/payment/internal/service/payment.go:37-43 | A lookup with a fresh id starts a charge if and only if no Save has landed before it |
| `Charging.OnePaymentIff` | services/payment/internal/service/payment.go:37-69 | The order keeps a single payment unless two deliveries look up before any Save has landed and both their Saves land, and not otherwise |
| `Charging.OverlapChargesTwice` | services/payment/internal/service/payment.go:37-69 | Two deliveries that both look up before either saves charge twice and both Saves land |
| `Charging.SerialIsProcessPayment` | services/payment/internal/service/payment.go:36-77 | A ProcessPayment call is its three steps with nothing in between |
| `Relay.RelaySafety` | shared/libs/go/outbox/relay.go:94-199 | However many relays run and crash: a row marked published is in the log, a row is there more than once only for publishes that reported an error or whose transaction did not commit, and no two relays hold the same row |
| `Relay.NeverPublishedAgain` | shared/libs/go/outbox/relay.go:134-165 | Once a row is marked published no later run publishes it again |
| `Relay.StepKeeps` | shared/libs/go/outbox/relay.go:94-199 | Every relay step keeps the exact account of each row's messages in the log |
| `Relay.LogIsSchedule` | shared/libs/go/outbox/relay.go:167-188 | Over any run the topics hold one message of a row for each publish of it that landed, answered or not |
| `Relay.PublishedWasAnswered` | shared/libs/go/outbox/relay.go:167-191 | A row is marked published only after a publish of it that was answered with success |
| `RelayBatch.DrainBound` | shared/libs/go/outbox/relay.go:94-199 | With batch size b and k < b failing rows ahead of the last waiting healthy row, the healthy rows are all published within their number divided by b - k batches, rounded up, however many rows fail behind it |
| `RelayBatch.PublishedIff` | shared/libs/go/outbox/relay.go:134-165 | A healthy pending row is published some day if and only if fewer than b failing rows stand ahead of it, and then within the batches the healthy rows up to it take |
| `RelayBatch.DrainsIff` | shared/libs/go/outbox/relay.go:134-165 | A backlog drains if and only if nothing healthy waits or fewer than b failing rows stand ahead of the last healthy row |
| `RelayBatch.BlockedForGood` | shared/libs/go/outbox/relay.go:134-165 | Once the b oldest pending rows all fail, no healthy row is ever published again |
| `RelayBatch.Relay.RelayBatch` | shared/libs/go/outbox/relay.go:94-118 | One batch tries each of the oldest pending rows once, up to the batch size, in order, and puts on the topics one message for each row it publishes and nothing else |
| `RelayBatch.BatchAt` | shared/libs/go/outbox/relay.go:134-199 | A selected row is published or has one failed attempt more; every other row is as it was |
| `RelayBatch.Relay.SelectPending` | shared/libs/go/outbox/relay.go:134-165 | Selects exactly the oldest pending rows, up to the batch size |
| `NotificationConsumer.CommittedMeansDealt` | services/notification/notification/consumer.py:80-87 | Over any run with crashes, restarts and rebalances, every message from the log end the group's commits descend from up to the committed offset was handled without error or written to the dead letter topic; if the group never began at another log end, that is every message since it first began |
| `NotificationConsumer.RestartSkips` | services/notification/notification/consumer.py:80-87 | In any state with nothing committed, whatever was not dealt with can still be skipped: one restart and one handled message leave it below a committed offset |
| `NotificationRestarts.NothingSkippedIff` | services/notification/notification/consumer.py:80-87 | Over any sequence of consumer lives, every message from the group's first start to its committed offset was dealt with if and only if, until the first commit, no restart found a message beyond the one the life before dealt with |
| `NotificationRestarts.FirstMessageSkipped` | services/notification/notification/consumer.py:120-160 | A new group's first message fails and its dead letter write raises; after the restart the second is handled and the first is skipped |
| `NotificationConsumer.StepKeeps` | services/notification/notification/consumer.py:120-160 | Every step of any consumer keeps the watermark, and a message is tried at most three times in a row |
| `NotificationConsumer.ProcessIsRun` | services/notification/notification/consumer.py:131-153 | Processing one message is a run of those steps |
| `NotificationConsumer.MessageExact` | services/notification/notification/consumer.py:131-160 | The loop goes on exactly behind an answered commit, which comes only behind a success or an answered dead letter write; what was executed shows in the partition, answered or not |
| `NotificationConsumer.LoopKeeps` | services/notification/notification/consumer.py:120-160 | The loop keeps the watermark whatever raises, and while it goes on it has committed every message it met |
| `NotificationConsumer.Consumer.HandleEvent` | services/notification/notification/consumer.py:140-152 | Stops at the first success and tries at most three times |
| `NotificationConsumer.Consumer.Process` | services/notification/notification/consumer.py:131-153 | Commits only behind a handled or dead-lettered message, and goes on only behind a commit; a JSON value that is no object ends the loop at once |
| `NotificationConsumer.NeverPast` | services/notification/notification/consumer.py:140-149 | A group that has committed never gets past a message that is JSON but no object, over any run with any restarts: the message is neither handled nor dead-lettered and nothing after it is committed |
| `NotificationConsumer.Consumer.Loop` | services/notification/notification/consumer.py:120-122 | Meets messages in offset order and ends at the first operation that raises |
| `Subscriber.RedeliveredIff` | shared/libs/go/events/kafka.go:92-101 | With an offset committed before or during the session a message is delivered again after a restart if and only if neither it nor any later message of the session was committed; with none, if and only if the log end at the restart lies no further than the message |
| `Subscriber.PromiseKeptIff` | shared/libs/go/events/kafka.go:188-206 | The documented promise that a message neither handled nor dead-lettered is delivered again holds if and only if no commit of the session follows such a message and, when nothing was ever committed, there is none |
| `Subscriber.PromiseBroken` | shared/libs/go/events/kafka.go:188-206 | Two sessions that break it: a new group whose only message fails with its dead letter write, and any group in which a later message is then handled |
| `Subscriber.RetryDelayIff` | shared/libs/go/events/kafka.go:251-255 | A retry waits between the doubled delay and half as much again, whatever is drawn, if and only if that upper bound fits in 64 bits |
| `Subscriber.HandleWithRetry` | shared/libs/go/events/kafka.go:238-247 | At most one call more than the retries, stopping at the first success; when all fail without overflow there are exactly retries plus one calls and the total wait lies between base times 2^m - 1 and one and a half times that |
| `Subscriber.HandlingExact` | shared/libs/go/events/kafka.go:238-247 | How handling ends is decided at its last call: by its success, the retries used up, a delay that cannot be drawn, or a context that is done |
| `Subscriber.LastCallExists` | shared/libs/go/events/kafka.go:238-247 | And there always is such a last call |
| `Subscriber.ResultExact` | shared/libs/go/events/kafka.go:210-282 | A message counts as handled if and only if it decoded and its last call succeeded, and as dead-lettered if and only if it was not, a topic is configured, the write lands and the process lives; an undecodable one is never handled |
| `Subscriber.NeverStops` | shared/libs/go/events/kafka.go:238-255 | Within the overflow bound and while its context lives, handling only ever succeeds or gives up |
| `Subscriber.Subscriber.ProcessMessage` | shared/libs/go/events/kafka.go:210-282 | The offset is committed only when the message was handled or dead-lettered; a delay that overflows crashes the process before either |
| `Subscriber.Subscriber.Subscribe` | shared/libs/go/events/kafka.go:193-206 | The session goes on after a message it could not deal with, and ends with a crash or its context; the committed offset is that of the last message committed, and handled and dead-lettered are recorded message by message |
| `Subscriber.MetIff` | shared/libs/go/events/kafka.go:193-206 | An offset counts as handled or dead-lettered after a session exactly when it did before or its message met that fate in it |
| `Retry.Retry` | shared/libs/go/resilience/retry.go:38-68 | fn runs at most max(1, MaxAttempts) times and is called again only after a retryable error while the context lives; the result is that of the attempt that ends the loop; every wait is bounded by the delay computed for it |
| `Retry.InterruptedIff` | shared/libs/go/resilience/retry.go:38-68 | A failure is an interruption exactly when the context was done; every other one is the last error of fn |
| `Retry.NoOverflowIff` | shared/libs/go/resilience/retry.go:72-84 | No attempt's delay overflows if and only if the base delay is below 2^43 nanoseconds |
| `Retry.DelayExact` | shared/libs/go/resilience/retry.go:72-91 | Below that bound every delay lies between zero and the base delay, or 100 ms when none is set, doubled at most twenty times and cut at the cap, and every such delay can be drawn |
| `Retry.PanicsIff` | shared/libs/go/resilience/retry.go:86-91 | The jitter draw panics in exactly one configuration: the largest base delay, with no cap below it, at the first retry |
| `Retry.DoneIffReached` | shared/libs/go/resilience/retry.go:38-68 | Success is reported exactly when an attempt that was reached succeeded |

## Left out

- HTTP routing, JSON, headers, pagination, JWT, proxying, configuration, logging, tracing, metrics, health checks: plumbing. An event whose payload lacks a valid order id or request is logged and skipped by the Go consumers before the modelled code runs.
- The circuit breaker: appears only as a call that is refused (`breakerOpen`) or fails without effect.
- Rate limiting, the product and order caches, templates, mail and SMS sending.
- Timestamps, `last_error`, metadata columns, the items and free text inside event payloads, `VARCHAR` lengths and 32-bit `INTEGER` column limits. Order totals are 64-bit with wrap-around; other quantities are unbounded.
- ReserveLaws.StockConservation: a product in several warehouses is outside the ledger, which holds one row per product; Warehouses.ConservedIff says exactly what such a product loses.
- SagaTheorems.LedgerSafety: the same.
- Products and stock are fixed from the start; no step adds a product or receives goods.
- `services/inventory/internal/domain/stock.go` methods on `Stock`: the repository updates the counters in SQL; only the validation of `NewReservation` is used and modelled.
- SagaTheorems.MoneySafety: does not cover outside HTTP calls that pay or refund, because under those the payment of an order is not the saga's to decide.
- SagaSystem: makes no claim that a reservation is never leaked, because a Reserve that times out may have taken effect (services/order/internal/handler/orders.go:170-173); the abandoned request is a step of the system and leaves rows no order owns.
- SagaSystem: the payment service's own Save failure after a charge is not a step of it; it is modelled in PaymentService and Charging, and leaves no table changed.
- PaymentService.ChargedTwiceIff: deliveries one after the other; overlapping ones are those of Charging.CalledTwiceIff.
- PaymentService.GatewayCalls: the same; overlapping deliveries are counted by Charging.CallsExact.
- OrderService.OrderService.FailPayment: retries inside the remote release call appear as one call, because releasing twice is releasing once.
- OrderService.OrderService.FailAfterPayment: retries inside the remote refund call appear as one call; a retry that meets the refund of the attempt before it is refused, which makes the call an unanswered one.
- Inventory.StockRepository.GiveUpItem: the CHECK on quantity_reserved is a precondition, discharged for every caller by Inventory.ReservedSuffices.
- PaymentRepository.Service.ProcessPayment: the fresh id, the breaker state and a failing database appear as parameters.
- Relay.RelaySafety: the order in which rows reach a topic is not modelled, because the bus is a bag.
- RelayBatch.DrainBound: a row either always publishes or always fails, and one relay works alone.
- SagaDelivery.RedeliveryChangesNothing: deliveries from end to end; overlapping ones are those of SagaOverlap.OverlapChangesNothing and SagaOverlap.OverlapIsOneDelivery.
- SagaOverlap.OverlapIsOneDelivery: steps in between that cancel the order, refund its payment, sell its stock, take up another payment event of it or still belong to its creation are excluded; they change the share by themselves, and SagaShares.StepShare says how.
- NotificationConsumer.CommittedMeansDealt: offsets of a partition are consecutive; gaps left by compaction are not modelled. What the handler itself sends and stores is an operation that may fail.
- Subscriber.HandleWithRetry: the wait bounds are stated within the overflow bound of the last retry; beyond it a delay may wrap or the draw may panic, as Subscriber.RetryDelayIff says.
- Subscriber.Subscriber.Subscribe: one session of one group member on one partition; retention that removes committed offsets or messages is not modelled.
- Retry.Retry: the context, the callback and the random draws are sequences given in advance.
