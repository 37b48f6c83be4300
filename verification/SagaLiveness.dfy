/** An interrupted compensation of a declined payment is finished by one more delivery. */
module SagaLiveness {
  import opened Common
  import opened Orders
  import opened StockLedger
  import opened EventStore
  import opened PaymentService
  import opened SagaSystem
  import opened SagaInvariant
  import opened StockFrames
  import opened SagaFrames
  import opened SagaSteps
  import opened SagaTheorems
  import opened SagaDelivery
  import P = Payment

  // ---------- rows of the filters are rows of the tables ----------

  lemma {:induction false} EventsForBack(a: seq<OrderEvent>, o: Id, e: OrderEvent)
    requires e in EventsFor(a, o)
    ensures exists i | 0 <= i < |a| :: a[i] == e && a[i].order == o
  {
    if e in EventsFor(a[..|a| - 1], o) {
      EventsForBack(a[..|a| - 1], o, e);
      var i :| 0 <= i < |a| - 1 && a[..|a| - 1][i] == e && e.order == o;
      assert a[i] == e;
    } else {
      assert a[|a| - 1] == e;
    }
  }

  lemma {:induction false} MessagesForBack(a: seq<PayMessage>, o: Id, m: PayMessage)
    requires m in MessagesFor(a, o)
    ensures exists i | 0 <= i < |a| :: a[i] == m && a[i].order == o
  {
    if m in MessagesFor(a[..|a| - 1], o) {
      MessagesForBack(a[..|a| - 1], o, m);
      var i :| 0 <= i < |a| - 1 && a[..|a| - 1][i] == m && m.order == o;
      assert a[i] == m;
    } else {
      assert a[|a| - 1] == m;
    }
  }

  // ---------- restart ----------

  // A declined payment's order that is closed.
  lemma {:induction false} FailureEnds(s: Sys, i: nat, init: map<Id, nat>)
    requires Inv(s, init) && i < |s.payOutbox| && s.payOutbox[i].kind == EvFailed
    requires var o := s.payOutbox[i].order;
             o in s.db.orders && IsTerminal(s.db.orders[o].status)
    ensures var o := s.payOutbox[i].order;
            && s.db.orders[o].status == Status.PaymentFailed && Lookup(s.db.sagas, o) == Some(Compensated)
            && AllReturned(s, o, s.db.orders[o]) && |Select(s.ledger.rows, o)| == 0
            && CountKind(EventsFor(s.db.outbox, o), OrderCancelled) == 1
  {
    var o := s.payOutbox[i].order;
    At(s, o, init);
    MessagesForMember(s.payOutbox, i);
    ViewTells(o, ViewOf(s, o), s.payOutbox[i]);
    CountShort(EventsFor(s.db.outbox, o), OrderCancelled);
    SelectHeld(s.ledger, o, HeldItems(s.db.orders[o]), Released);
    HoldingIsLines(s, o, Released, init);
  }

  // Whatever interrupted FailPayment and however often, one clean run of it ends the order:
  // payment_failed and compensated, everything given back, cancelled announced exactly once.
  lemma {:induction false} FailPaymentRestarts(s0: Sys, steps: seq<Step>, init: map<Id, nat>, d: Delivery)
    requires Initial(s0, init) && d.ToOrders? && Clean(Run(s0, steps), d)
             && Run(s0, steps).payOutbox[d.i].kind == EvFailed
    ensures var o := OrderOf(Run(s0, steps), d);
            var t := AfterDelivery(Run(s0, steps), d);
            && o in t.db.orders && t.db.orders[o].status == Status.PaymentFailed
            && Lookup(t.db.sagas, o) == Some(Compensated)
            && AllReturned(t, o, t.db.orders[o]) && |Select(t.ledger.rows, o)| == 0
            && CountKind(EventsFor(t.db.outbox, o), OrderCancelled) == 1
  {
    var s := Run(s0, steps);
    Reachable(s0, steps, init);
    DeliveryKeeps(s, d, init);
    CleanSettles(s, d, init);
    OutboxGrowsRun(s, Script(d));
    FailureEnds(AfterDelivery(s, d), d.i, init);
  }

  // While a declined payment's order is being compensated, there is such a row to deliver.
  lemma {:induction false} DeclineWasAnnounced(s0: Sys, steps: seq<Step>, init: map<Id, nat>, o: Id)
    requires Initial(s0, init)
    requires Lookup(Run(s0, steps).db.sagas, o) == Some(Compensating)
    requires forall id | id in Run(s0, steps).streams && BelongsTo(Run(s0, steps).streams[id], o) ::
             P.TurnedDown(Run(s0, steps).streams[id])
    ensures exists i | 0 <= i < |Run(s0, steps).payOutbox| ::
              Run(s0, steps).payOutbox[i].kind == EvFailed && Run(s0, steps).payOutbox[i].order == o
  {
    var s := Run(s0, steps);
    Reachable(s0, steps, init);
    At(s, o, init);
    ViewPayLegal(s, o);
    var m := ViewOf(s, o).msgs[1];
    MessagesForBack(s.payOutbox, o, m);
  }
}
