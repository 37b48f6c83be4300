/** The order service as objects: the order and saga repositories with their tables updated in
    place, the lifecycle operations of the service, the payments consumer and the create handler.
    Each method runs undisturbed and is proved against a function of the tables. */
module OrderService {
  import opened Common
  import opened Orders
  import opened StockLedger
  import opened Inventory
  import opened SagaSystem
  import opened OrderRuns
  import opened EventStore
  import PaymentRepository

  class OrderService {
    var orders: map<Id, Order>
    var sagas: map<Id, SagaState>
    var outbox: seq<OrderEvent>
    const inventory: StockRepository
    const payments: PaymentRepository.Service

    function Tables(): OrderTables
      reads this
    {
      OrderTables(orders, sagas, outbox)
    }

    // The primary key of the orders table.
    predicate Keyed()
      reads this
    {
      forall o | o in orders :: orders[o].id == o
    }

    constructor (inventory: StockRepository, payments: PaymentRepository.Service)
      ensures this.inventory == inventory && this.payments == payments
      ensures Keyed() && Tables() == OrderTables(map[], map[], [])
    {
      this.inventory, this.payments := inventory, payments;
      orders, sagas, outbox := map[], map[], [];
    }

    method Rollback(saved: OrderTables)
      modifies this
      ensures Tables() == saved
    {
      orders, sagas, outbox := saved.orders, saved.sagas, saved.outbox;
    }

    // ---------- repositories ----------

    // Save inserts the order, its items one by one, and order.created, in one transaction.
    method Save(ord: Order) returns (r: Outcome)
      requires Keyed()
      modifies this
      ensures Keyed()
      ensures (Tables(), r) == Applied(SaveOrderTx(old(Tables()), ord), old(Tables()))
    {
      var saved := Tables();
      if ord.id in orders || ord.total < 0 {
        return Failed(Constraint);
      }
      orders := orders[ord.id := ord];
      for i := 0 to |ord.lines|
        invariant forall j | 0 <= j < i ::
                    ord.lines[j].quantity > 0 && ord.lines[j].unitPrice >= 0 && ord.lines[j].total >= 0
      {
        if ord.lines[i].quantity <= 0 || ord.lines[i].unitPrice < 0 || ord.lines[i].total < 0 {
          Rollback(saved);
          return Failed(Constraint);
        }
      }
      outbox := outbox + [EventOf(OrderCreated, ord)];
      r := Done;
    }

    method Start(o: Id) returns (r: Outcome)
      requires Keyed()
      modifies this`sagas
      ensures Keyed()
      ensures (Tables(), r) == Applied(StartSaga(old(Tables()), o), old(Tables()))
    {
      if o in sagas || o !in orders {
        return Failed(Constraint);
      }
      sagas := sagas[o := Started];
      r := Done;
    }

    // Moves the saga along its graph; a move to its present state writes nothing.
    method Transition(o: Id, to: SagaState) returns (r: Outcome)
      requires Keyed()
      modifies this`sagas
      ensures Keyed()
      ensures (Tables(), r) == Applied(MoveSaga(old(Tables()), o, to), old(Tables()))
    {
      if o !in sagas {
        return Failed(NotFound);
      }
      if !CanTransition(sagas[o], to) {
        return Failed(Conflict);
      }
      if sagas[o] != to {
        sagas := sagas[o := to];
      } else {
        assert sagas[o := to] == sagas;
      }
      r := Done;
    }

    method UpdateStatus(o: Id, status: Status, expected: nat) returns (r: Outcome)
      requires Keyed()
      modifies this`orders
      ensures Keyed()
      ensures (Tables(), r) == Applied(Orders.UpdateStatus(old(Tables()), o, status, expected), old(Tables()))
    {
      if o !in orders || orders[o].version != expected {
        return Failed(Conflict);
      }
      orders := orders[o := orders[o].(status := status, version := orders[o].version + 1)];
      r := Done;
    }

    // ---------- lifecycle ----------

    method ApplyTransition(copy: Order, to: Status, kind: OrderEventKind) returns (r: Outcome)
      requires Keyed()
      modifies this`orders, this`outbox
      ensures Keyed()
      ensures (Tables(), r) == Applied(Orders.ApplyTransition(old(Tables()), copy, to, kind), old(Tables()))
    {
      var changed := ApplyAction(copy, to);
      if changed.Err? {
        return Failed(changed.error);
      }
      r := UpdateStatus(copy.id, changed.value.status, copy.version);
      if r == Done {
        outbox := outbox + [EventOf(kind, changed.value)];
      }
    }

    // MarkPendingPaymentAfterCreate, with the transaction it opens.
    method MarkPendingPaymentAfterCreate(o: Id) returns (r: Outcome)
      requires Keyed()
      modifies this
      ensures Keyed()
      ensures (Tables(), r) == MarkPendingRun(old(Tables()), o)
      ensures r == Done <==> o in old(orders) && old(orders)[o].status == Pending && o !in old(sagas)
      ensures r == Done ==> Stands(Tables(), o, PendingPayment, AwaitingPayment)
      ensures r.Failed? ==> Tables() == old(Tables())
    {
      MarkPendingAnswer(Tables(), o);
      var saved := Tables();
      if o !in orders {
        return Failed(NotFound);
      }
      var copy := orders[o];
      r := Start(o);
      if r == Done { r := Transition(o, StockReserved); }
      if r == Done { r := ApplyTransition(copy, PendingPayment, OrderReadyForPayment); }
      if r == Done { r := Transition(o, AwaitingPayment); }
      if r.Failed? { Rollback(saved); }
    }

    method ConfirmPayment(o: Id) returns (r: Outcome)
      requires Keyed()
      modifies this
      ensures Keyed()
      ensures (Tables(), r) == ConfirmRun(old(Tables()), o)
      ensures r == Done <==> WasTerminal(old(Tables()), o) || Stands(Tables(), o, Confirmed, Completed)
      ensures r.Failed? ==> Tables() == old(Tables())
    {
      ConfirmAnswer(Tables(), o);
      var saved := Tables();
      if o !in orders {
        return Failed(NotFound);
      }
      var copy := orders[o];
      if IsTerminal(copy.status) {
        return Done;
      }
      r := Transition(o, Paid);
      if r == Done { r := ApplyTransition(copy, Confirmed, OrderConfirmed); }
      if r == Done { r := Transition(o, Completed); }
      if r.Failed? { Rollback(saved); }
    }

    // The remote release, which may be executed without the caller learning of it.
    method CallRelease(o: Id, call: Call) returns (r: Outcome)
      requires inventory.Valid()
      modifies inventory
      ensures inventory.Valid() && inventory.Tables() == ReleasedBy(old(inventory.Tables()), o, call)
      ensures r == if call == Answered then Done else Failed(Unavailable)
    {
      if call != Lost {
        inventory.Release(o);
      }
      r := if call == Answered then Done else Failed(Unavailable);
    }

    // The closing part of a compensation: release, then the final transition in the caller's
    // transaction, which rolls back to the checkpoint when it fails.
    method Undo(copy: Order, release: Call, to: Status) returns (r: Outcome)
      requires inventory.Valid()
      requires Keyed()
      modifies this, inventory
      ensures Keyed()
      ensures inventory.Valid()
      ensures After(Tables(), inventory.Tables(), r) == UndoRun(old(Tables()), old(inventory.Tables()), copy,
              release, to)
    {
      var checkpoint := Tables();
      r := CallRelease(copy.id, release);
      if r.Failed? {
        return;
      }
      r := ApplyTransition(copy, to, OrderCancelled);
      if r == Done { r := Transition(copy.id, Compensated); }
      if r.Failed? { Rollback(checkpoint); }
    }

    method FailPayment(o: Id, release: Call) returns (r: Outcome)
      requires inventory.Valid()
      requires Keyed()
      modifies this, inventory
      ensures Keyed()
      ensures inventory.Valid()
      ensures After(Tables(), inventory.Tables(), r) == FailRun(old(Tables()), old(inventory.Tables()), o, release)
      ensures r == Done <==>
              WasTerminal(old(Tables()), o)
              || (Stands(Tables(), o, Status.PaymentFailed, Compensated) && NothingReserved(inventory.Tables(), o))
    {
      FailAnswer(Tables(), inventory.Tables(), o, release);
      if o !in orders {
        return Failed(NotFound);
      }
      var copy := orders[o];
      if IsTerminal(copy.status) {
        return Done;
      }
      r := Transition(o, Compensating);
      if r == Done {
        r := Undo(copy, release, Status.PaymentFailed);
      }
    }

    method FailAfterPayment(o: Id, payment: Id, reason: string, refund: Call, release: Call) returns (r: Outcome)
      requires inventory.Valid() && payments.repo.Valid()
      requires Keyed()
      modifies this, inventory, payments.repo
      ensures Keyed()
      ensures inventory.Valid() && payments.repo.Valid()
      ensures (After(Tables(), inventory.Tables(), r), payments.repo.streams) ==
              CancelRun(old(Tables()), old(inventory.Tables()), old(payments.repo.streams), o, payment, reason,
                  refund, release)
      ensures r == Done <==>
              WasTerminal(old(Tables()), o)
              || (Stands(Tables(), o, Cancelled, Compensated) && NothingReserved(inventory.Tables(), o)
                  && IsRefunded(payments.repo.streams, payment))
    {
      CancelAnswer(Tables(), inventory.Tables(), payments.repo.streams, o, payment, reason, refund, release);
      if o !in orders {
        return Failed(NotFound);
      }
      var copy := orders[o];
      if IsTerminal(copy.status) {
        return Done;
      }
      r := Transition(o, Compensating);
      if r.Failed? {
        return;
      }
      if refund == Lost {
        return Failed(Unavailable);
      }
      r := payments.RefundPayment(payment, reason);
      if r.Failed? {
        return;
      }
      if refund == Unanswered {
        return Failed(Unavailable);
      }
      r := Undo(copy, release, Cancelled);
    }
  }

  // Applies payment results to orders; the processed mark commits with the effect.
  class PaymentsConsumer {
    const orders: OrderService
    var processed: set<Id>

    constructor (orders: OrderService)
      ensures this.orders == orders && processed == {}
    {
      this.orders := orders;
      processed := {};
    }

    method Handle(event: Id, kind: PayEventKind, o: Id, release: Call) returns (r: Outcome)
      requires orders.inventory.Valid()
      requires orders.Keyed()
      modifies this, orders, orders.inventory
      ensures orders.Keyed()
      ensures orders.inventory.Valid()
      ensures (After(orders.Tables(), orders.inventory.Tables(), r), processed) ==
              HandleRun(old(orders.Tables()), old(orders.inventory.Tables()), old(processed), event, kind, o, release)
      ensures processed == old(processed) || processed == old(processed) + {event}
      ensures event !in old(processed) ==>
                (event in processed <==>
                   && (kind == EvProcessed || kind == EvFailed)
                   && (WasTerminal(old(orders.Tables()), o)
                       || (if kind == EvProcessed then Stands(orders.Tables(), o, Confirmed, Completed)
                           else Stands(orders.Tables(), o, Status.PaymentFailed, Compensated)
                                && NothingReserved(orders.inventory.Tables(), o))))
      ensures r == Done <==> (kind != EvProcessed && kind != EvFailed) || event in processed
    {
      if kind != EvProcessed && kind != EvFailed {
        return Done;
      }
      if event in processed {
        return Done;
      }
      var saved := processed;
      processed := processed + {event};
      if kind == EvProcessed {
        r := orders.ConfirmPayment(o);
      } else {
        r := orders.FailPayment(o, release);
      }
      if r.Failed? {
        processed := saved;
      }
    }
  }

  // Create reserves stock, saves the order and marks it pending payment; when the save fails the
  // reservation is released again.
  class OrdersHandler {
    const orders: OrderService

    constructor (orders: OrderService)
      ensures this.orders == orders
    {
      this.orders := orders;
    }

    method Create(id: Id, customer: Id, lines: seq<Line>, currency: string, reserve: Call, save: Call, undo: Call)
      returns (r: Outcome)
      requires orders.inventory.Valid()
      requires orders.Keyed()
      modifies orders, orders.inventory
      ensures orders.Keyed()
      ensures orders.inventory.Valid()
      ensures After(orders.Tables(), orders.inventory.Tables(), r) ==
              CreateFor(old(orders.Tables()), old(orders.inventory.Tables()), id, customer, lines, currency, reserve,
                  save, undo)
    {
      var built := NewOrder(id, customer, lines, if |currency| == 0 then "USD" else currency);
      if built.Err? {
        return Failed(built.error);
      }
      var ord := built.value;
      if reserve == Lost {
        return Failed(Unavailable);
      }
      r := orders.inventory.Reserve(id, ItemsOf(ord.lines));
      if r.Failed? {
        return;
      }
      if reserve == Unanswered {
        return Failed(Unavailable);
      }
      r := Store(ord, save, undo);
    }

    // What follows a reservation.
    method Store(ord: Order, save: Call, undo: Call) returns (r: Outcome)
      requires orders.inventory.Valid()
      requires orders.Keyed()
      modifies orders, orders.inventory
      ensures orders.Keyed()
      ensures orders.inventory.Valid()
      ensures After(orders.Tables(), orders.inventory.Tables(), r) ==
              StoreRun(old(orders.Tables()), old(orders.inventory.Tables()), ord, save, undo)
    {
      r := Failed(Unavailable);
      if save != Lost {
        r := orders.Save(ord);
      }
      if r == Done && save == Unanswered {
        r := Failed(Unavailable);
      }
      if r.Failed? {
        var _ := orders.CallRelease(ord.id, undo);
        return;
      }
      r := orders.MarkPendingPaymentAfterCreate(ord.id);
    }
  }
}
