/** What every run of the saga system guarantees, whatever the interleaving, crashes, lost or late
    calls, redeliveries and reorderings. */
module SagaTheorems {
  import opened Common
  import opened Orders
  import opened StockLedger
  import opened EventStore
  import opened PaymentService
  import opened SagaSystem
  import opened SagaInvariant
  import opened SagaFrames
  import opened SagaSteps
  import opened HeldLines
  import P = Payment

  // ---------- stock ----------

  // Everything the order reserved is still reserved or sold; no release was recorded and none is
  // on its way.
  ghost predicate NeverReturned(s: Sys, o: Id, ord: Order) {
    && MoveCount(s.ledger.moves, o, Release) == 0 && o !in s.releasing
    && (HoldsLines(s.ledger.rows, ord, Reserved) || HoldsLines(s.ledger.rows, ord, RowStatus.Committed))
  }

  // Everything the order reserved was given back and none of it was sold.
  ghost predicate AllReturned(s: Sys, o: Id, ord: Order) {
    MoveCount(s.ledger.moves, o, Sale) == 0 && HoldsLines(s.ledger.rows, ord, Released)
  }

  // What an order holds, in a state that satisfies the invariant.
  lemma {:induction false} HoldingIsLines(s: Sys, o: Id, st: RowStatus, init: map<Id, nat>)
    requires Inv(s, init) && o in s.db.orders && Holds(ViewOf(s, o), s.db.orders[o], st)
    ensures HoldsLines(s.ledger.rows, s.db.orders[o], st)
  {
    At(s, o, init);
    HeldIsLines(s.ledger, s.db.orders[o], st);
  }

  // In every reachable state a saved order holds exactly its lines; a confirmed one never gave any back,
  // and a payment_failed or cancelled one gave all of them back.
  lemma {:induction false} StockSafety(s: Sys, steps: seq<Step>, init: map<Id, nat>, o: Id)
    requires Initial(s, init) && o in Run(s, steps).db.orders
    ensures var t := Run(s, steps);
            var ord := t.db.orders[o];
            && |ord.lines| > 0 && ord.id == o && (exists st :: HoldsLines(t.ledger.rows, ord, st))
            && (Lookup(t.db.sagas, o) == Some(AwaitingPayment) ==> HoldsLines(t.ledger.rows, ord, Reserved))
            && (ord.status == Confirmed ==> NeverReturned(t, o, ord))
            && (ord.status == Status.PaymentFailed || ord.status == Cancelled ==> AllReturned(t, o, ord))
  {
    var t := Run(s, steps);
    Reachable(s, steps, init);
    At(t, o, init);
    var ord := t.db.orders[o];
    forall st | Holds(ViewOf(t, o), ord, st) ensures HoldsLines(t.ledger.rows, ord, st) {
      HoldingIsLines(t, o, st, init);
    }
  }

  // Conservation, and the counters rebuilt from the movement log, in every reachable state.
  lemma {:induction false} LedgerSafety(s: Sys, steps: seq<Step>, init: map<Id, nat>)
    requires Initial(s, init)
    ensures LedgerInv(Run(s, steps).ledger, init)
  {
    Reachable(s, steps, init);
  }

  // ---------- money ----------

  lemma {:induction false} MoneySafety(s: Sys, steps: seq<Step>, init: map<Id, nat>, o: Id)
    requires Initial(s, init) && o in Run(s, steps).db.orders
    ensures var t := Run(s, steps);
            var ord := t.db.orders[o];
            && OnePerOrder(t.streams) && StreamsLegal(t.streams)
            && (ord.status == Confirmed ==>
                  exists id | id in t.streams ::
                    BelongsTo(t.streams[id], o) && P.Captured(t.streams[id]) && t.streams[id][0].amount == ord.total
                        && id !in t.refunding)
            && (ord.status == Status.PaymentFailed ==>
                  exists id | id in t.streams :: BelongsTo(t.streams[id], o) && P.TurnedDown(t.streams[id]))
            && (ord.status == Cancelled ==>
                  exists id | id in t.streams ::
                    BelongsTo(t.streams[id], o) && P.WasRefunded(t.streams[id]) && t.streams[id][2].refund == ord.total)
  {
    var t := Run(s, steps);
    Reachable(s, steps, init);
    At(t, o, init);
    ViewPayLegal(t, o);
  }

  // A payment carries its order's terms, and only a total the gateway takes is ever captured. The total is
  // what the lines come to.
  lemma {:induction false} PaymentTerms(s: Sys, steps: seq<Step>, init: map<Id, nat>, o: Id, id: Id)
    requires Initial(s, init) && id in Run(s, steps).streams && BelongsTo(Run(s, steps).streams[id], o)
    ensures var t := Run(s, steps);
            var es := t.streams[id];
            && o in t.db.orders && Billed(t.db.orders[o])
            && es[0] == P.PaymentInitiated(id, o, t.db.orders[o].customer, t.db.orders[o].total,
               t.db.orders[o].currency)
            && |es| >= 2 && (es[1].PaymentProcessed? ==> t.db.orders[o].total <= 1_000_000)
  {
    var t := Run(s, steps);
    Reachable(s, steps, init);
    At(t, o, init);
    PayOfIs(t.streams, o, id);
  }

  // ---------- order, saga and outbox ----------

  function CountKind(events: seq<OrderEvent>, k: OrderEventKind): nat {
    if |events| == 0 then 0
    else CountKind(events[..|events| - 1], k) + if events[|events| - 1].kind == k then 1 else 0
  }

  lemma {:induction false} CountShort(events: seq<OrderEvent>, k: OrderEventKind)
    ensures |events| == 1 ==> CountKind(events, k) == if events[0].kind == k then 1 else 0
    ensures |events| == 2 ==>
              CountKind(events, k) == (if events[0].kind == k then 1 else 0) + if events[1].kind == k then 1 else 0
    ensures |events| == 3 ==>
              CountKind(events, k) == (if events[0].kind == k then 1 else 0) + (if events[1].kind == k then 1 else 0)
                  + if events[2].kind == k then 1 else 0
  {
    if 0 < |events| <= 3 {
      CountShort(events[..|events| - 1], k);
    }
  }

  // Status and saga always form one of six pairs; the order's version counts its outbox rows, and
  // exactly the closing event its status calls for was announced.
  lemma {:induction false} OrderAndSagaAgree(s: Sys, steps: seq<Step>, init: map<Id, nat>, o: Id)
    requires Initial(s, init) && o in Run(s, steps).db.orders
    ensures var t := Run(s, steps);
            var ord := t.db.orders[o];
            var events := EventsFor(t.db.outbox, o);
            && (ord.status, Lookup(t.db.sagas, o)) in
               {(Pending, None), (PendingPayment, Some(AwaitingPayment)), (PendingPayment, Some(Compensating)),
                (Confirmed, Some(Completed)), (Status.PaymentFailed, Some(Compensated)), (Cancelled, Some(Compensated))}
            && |events| == ord.version
            && CountKind(events, OrderConfirmed) == (if ord.status == Confirmed then 1 else 0)
            && CountKind(events, OrderCancelled) ==
               if ord.status == Status.PaymentFailed || ord.status == Cancelled then 1 else 0
  {
    var t := Run(s, steps);
    Reachable(s, steps, init);
    At(t, o, init);
    CountShort(EventsFor(t.db.outbox, o), OrderConfirmed);
    CountShort(EventsFor(t.db.outbox, o), OrderCancelled);
  }

  // What the outbox says of an order, in full: created, then ready for payment, then how it closed; every
  // row with the order's own terms and the status it had reached.
  lemma {:induction false} OutboxTellsOrder(s: Sys, steps: seq<Step>, init: map<Id, nat>, o: Id)
    requires Initial(s, init) && o in Run(s, steps).db.orders
    ensures var t := Run(s, steps);
            var ord := t.db.orders[o];
            var created := EventAt(OrderCreated, ord, Pending);
            var ready := EventAt(OrderReadyForPayment, ord, PendingPayment);
            EventsFor(t.db.outbox, o) ==
            match ord.status
            case Pending => [created]
            case PendingPayment => [created, ready]
            case Confirmed => [created, ready, EventAt(OrderConfirmed, ord, Confirmed)]
            case _ => [created, ready, EventAt(OrderCancelled, ord, ord.status)]
  {
    Reachable(s, steps, init);
    At(Run(s, steps), o, init);
  }

  // ---------- what is final ----------

  predicate DbMonotone(t: OrderTables, t': OrderTables) {
    && (forall o | o in t.orders :: o in t'.orders && (IsTerminal(t.orders[o].status) ==> t'.orders[o] == t.orders[o]))
    && (forall o | o in t.orders :: t.orders[o].status != Pending ==> t'.orders[o].status != Pending)
    && (forall o | o in t.sagas && Undone(Lookup(t.sagas, o)) :: Undone(Lookup(t'.sagas, o)))
    && t.outbox <= t'.outbox
  }

  lemma {:induction false} MonotoneRefl(t: OrderTables)
    ensures DbMonotone(t, t)
  {
  }

  lemma {:induction false} MonotoneTrans(a: OrderTables, b: OrderTables, c: OrderTables)
    requires DbMonotone(a, b) && DbMonotone(b, c)
    ensures DbMonotone(a, c)
  {
  }

  lemma {:induction false} PutMonotone(t: OrderTables, ord: Order, saga: SagaState, e: OrderEvent)
    requires ord.id in t.orders && !IsTerminal(t.orders[ord.id].status) && ord.status != Pending
    requires Undone(Lookup(t.sagas, ord.id)) ==> Undone(Some(saga))
    ensures DbMonotone(t, Put(t, ord, saga, e))
  {
  }

  lemma {:induction false} MarkMonotone(s: Sys, o: Id, init: map<Id, nat>)
    requires Inv(s, init) && o in s.creates && s.creates[o].Copied? && MarkPendingTx(s.db, s.creates[o].order).Ok?
    ensures DbMonotone(s.db, MarkPendingTx(s.db, s.creates[o].order).value)
  {
    At(s, o, init);
    var copy := s.creates[o].order;
    MarkPendingExact(s.db, copy);
    PutMonotone(s.db, s.db.orders[o].(status := PendingPayment, version := copy.version + 1), AwaitingPayment,
                EventOf(OrderReadyForPayment, copy.(status := PendingPayment)));
  }

  lemma {:induction false} SaveMonotone(t: OrderTables, ord: Order)
    requires SaveOrderTx(t, ord).Ok?
    ensures DbMonotone(t, SaveOrderTx(t, ord).value)
  {
    SavedTables(t, ord);
  }

  lemma {:induction false} CreateMonotone(s: Sys, call: CreateCall, o: Id, init: map<Id, nat>)
    requires Inv(s, init) && o in s.creates
    ensures DbMonotone(s.db, CreateStep(s, call, o, s.creates[o]).db)
  {
    var c := s.creates[o];
    MonotoneRefl(s.db);
    if call == Mark && c.Copied? && MarkPendingTx(s.db, c.order).Ok? {
      MarkMonotone(s, o, init);
    } else if call.SaveOrder? && c.Saving? && SaveOrderTx(s.db, c.order).Ok? {
      SaveMonotone(s.db, c.order);
    }
  }

  lemma {:induction false} CompensateMonotone(s: Sys, h: Id, x: Handler)
    ensures DbMonotone(s.db, CompensateStep(s, h, x).db)
  {
    CompensateExact(s.db, x.copy.id);
  }

  lemma {:induction false} EndMonotone(s: Sys, h: Id, x: Handler, tx: Result<OrderTables>)
    requires tx.Ok? ==> DbMonotone(s.db, tx.value)
    ensures DbMonotone(s.db, CommitAndEnd(s, h, x, tx).db)
  {
    MonotoneRefl(s.db);
  }

  lemma {:induction false} ConfirmMonotone(s: Sys, h: Id, x: Handler, init: map<Id, nat>)
    requires Inv(s, init) && h in s.handlers && s.handlers[h] == x && x.at == ToConfirm
    ensures DbMonotone(s.db, CommitAndEnd(s, h, x, ConfirmTx(s.db, x.copy)).db)
  {
    var copy := x.copy;
    assert InFlightOk(s, h);
    At(s, copy.id, init);
    ConfirmExact(s.db, copy);
    if ConfirmTx(s.db, copy).Ok? {
      PutMonotone(s.db, s.db.orders[copy.id].(status := Confirmed, version := copy.version + 1), Completed,
                  EventOf(OrderConfirmed, copy.(status := Confirmed)));
    }
    EndMonotone(s, h, x, ConfirmTx(s.db, copy));
  }

  lemma {:induction false} FinishMonotone(s: Sys, h: Id, x: Handler, init: map<Id, nat>)
    requires Inv(s, init) && h in s.handlers && s.handlers[h] == x && x.at == ToFinish
    ensures DbMonotone(s.db, CommitAndEnd(s, h, x, FinishTx(s.db, x.copy, Target(x.kind))).db)
  {
    var copy, to := x.copy, Target(x.kind);
    assert InFlightOk(s, h);
    At(s, copy.id, init);
    FinishExact(s.db, copy, to);
    if FinishTx(s.db, copy, to).Ok? {
      PutMonotone(s.db, s.db.orders[copy.id].(status := to, version := copy.version + 1), Compensated,
                  EventOf(OrderCancelled, copy.(status := to)));
    }
    EndMonotone(s, h, x, FinishTx(s.db, copy, to));
  }

  lemma {:induction false} RemoteCallsKeepDb(s: Sys, call: HandlerCall, h: Id, x: Handler)
    ensures call == Confirm || call == Compensate || call == Finish || HandlerStep(s, call, h, x).db == s.db
  {
  }

  lemma {:induction false} HandlerMonotone(s: Sys, call: HandlerCall, h: Id, init: map<Id, nat>)
    requires Inv(s, init) && h in s.handlers
    ensures DbMonotone(s.db, HandlerStep(s, call, h, s.handlers[h]).db)
  {
    var x := s.handlers[h];
    MonotoneRefl(s.db);
    RemoteCallsKeepDb(s, call, h, x);
    match call
    case Confirm => if x.at == ToConfirm { ConfirmMonotone(s, h, x, init); }
    case Compensate => if x.at == ToCompensate { CompensateMonotone(s, h, x); }
    case Finish => if x.at == ToFinish { FinishMonotone(s, h, x, init); }
    case _ =>
  }

  lemma {:induction false} OtherStepsKeepDb(s: Sys, step: Step)
    requires !step.Creating? && !step.Handling?
    ensures Next(s, step).db == s.db
  {
  }

  lemma {:induction false} StepMonotone(s: Sys, step: Step, init: map<Id, nat>)
    requires Inv(s, init)
    ensures DbMonotone(s.db, Next(s, step).db)
  {
    MonotoneRefl(s.db);
    if step.Creating? {
      if step.o in s.creates {
        CreateMonotone(s, step.create, step.o, init);
      }
    } else if step.Handling? {
      if step.h in s.handlers {
        HandlerMonotone(s, step.call, step.h, init);
      }
    } else {
      OtherStepsKeepDb(s, step);
    }
  }

  lemma {:induction false} RunKeeps(s: Sys, steps: seq<Step>, init: map<Id, nat>)
    requires Inv(s, init)
    ensures Inv(Run(s, steps), init) && DbMonotone(s.db, Run(s, steps).db)
  {
    if |steps| > 0 {
      var before := Run(s, steps[..|steps| - 1]);
      RunKeeps(s, steps[..|steps| - 1], init);
      StepKeeps(before, steps[|steps| - 1], init);
      StepMonotone(before, steps[|steps| - 1], init);
      MonotoneTrans(s.db, before.db, Run(s, steps).db);
    }
  }

  lemma {:induction false} RunAppend(s: Sys, a: seq<Step>, b: seq<Step>)
    ensures Run(s, a + b) == Run(Run(s, a), b)
  {
    if |b| == 0 {
      assert a + b == a;
    } else {
      RunAppend(s, a, b[..|b| - 1]);
      assert (a + b)[..|a + b| - 1] == a + b[..|b| - 1];
    }
  }

  // A closed order never changes again, and once its saga compensates it is never confirmed,
  // whatever happens afterwards.
  lemma {:induction false} ClosedForGood(s: Sys, steps: seq<Step>, more: seq<Step>, init: map<Id, nat>, o: Id)
    requires Initial(s, init) && o in Run(s, steps).db.orders
    ensures var t, t' := Run(s, steps), Run(s, steps + more);
            && o in t'.db.orders
            && (t.db.orders[o].status in {Confirmed, Status.PaymentFailed, Cancelled} ==>
                  t'.db.orders[o] == t.db.orders[o])
            && (Lookup(t.db.sagas, o) in {Some(Compensating), Some(Compensated)} ==>
                  t'.db.orders[o].status != Confirmed)
  {
    Reachable(s, steps, init);
    RunAppend(s, steps, more);
    RunKeeps(Run(s, steps), more, init);
    At(Run(s, steps + more), o, init);
  }
}
