/** Clean deliveries: one outbox row handled from end to end by one consumer, undisturbed.
    Redelivery, restart and draining are stated over them. */
module SagaDelivery {
  import opened Common
  import opened Orders
  import opened StockLedger
  import opened EventStore
  import opened PaymentService
  import opened Inventory
  import opened SagaSystem
  import opened SagaInvariant
  import opened StockFrames
  import opened SagaFrames
  import opened SagaSteps
  import opened SagaShares
  import opened SagaTheorems

  // What the services hold, apart from processed marks and handlers in flight.
  datatype Core = Core(db: OrderTables, ledger: Ledger, streams: Streams, payOutbox: seq<PayMessage>)

  function CoreOf(s: Sys): Core {
    Core(s.db, s.ledger, s.streams, s.payOutbox)
  }

  // Which row goes to which consumer, and the ids that happen to be drawn on the way.
  datatype Delivery =
    | ToPayment(i: nat, event: Id, freshId: Id, breakerOpen: bool)
    | ToOrders(i: nat, event: Id, h: Id)
    | ToStock(i: nat, event: Id)

  function Script(d: Delivery): seq<Step> {
    match d
    case ToPayment(i, event, freshId, breakerOpen) => [DeliverToPayment(i, event, freshId, breakerOpen, true)]
    case ToOrders(i, event, h) =>
      [DeliverToOrders(h, i, event), Handling(h, Confirm), Handling(h, Compensate),
          Handling(h, CallRelease(Answered)), Handling(h, Finish)]
    case ToStock(i, event) => [DeliverToStock(i, event)]
  }

  function AfterDelivery(s: Sys, d: Delivery): Sys {
    Run(s, Script(d))
  }

  predicate RowExists(s: Sys, d: Delivery) {
    if d.ToOrders? then d.i < |s.payOutbox| else d.i < |s.db.outbox|
  }

  // The handler, and the id drawn for a payment, are new.
  predicate Undisturbed(s: Sys, d: Delivery) {
    && RowExists(s, d)
    && (d.ToOrders? ==> d.h !in s.handlers)
    && (d.ToPayment? ==> d.freshId !in s.streams && d.freshId != NIL)
  }

  // Undisturbed, and not taken for an event already processed.
  predicate Clean(s: Sys, d: Delivery) {
    Undisturbed(s, d) && d.event !in (if d.ToPayment? then s.payMarks else if d.ToOrders? then s.orderMarks
        else s.stockMarks)
  }

  predicate SameRow(d: Delivery, d': Delivery) {
    d.i == d'.i && (d.ToPayment? <==> d'.ToPayment?) && (d.ToOrders? <==> d'.ToOrders?)
  }

  // The order a delivery is about.
  function OrderOf(s: Sys, d: Delivery): Id
    requires RowExists(s, d)
  {
    if d.ToOrders? then s.payOutbox[d.i].order else s.db.outbox[d.i].order
  }

  // Nothing is left for the consumer of this row to do.
  predicate Settled(s: Sys, d: Delivery)
    requires RowExists(s, d)
  {
    var o := OrderOf(s, d);
    match d
    case ToPayment(i, _, _, _) => s.db.outbox[i].kind == OrderReadyForPayment ==>
      HasPayment(s.streams, o) || s.db.outbox[i].total <= 0
    case ToOrders(i, _, _) =>
      var k := s.payOutbox[i].kind;
      && (k == EvProcessed || k == EvFailed ==> o in s.db.orders)
      && (k == EvProcessed ==> IsTerminal(s.db.orders[o].status) || Undone(Lookup(s.db.sagas, o)))
      && (k == EvFailed ==> IsTerminal(s.db.orders[o].status))
    case ToStock(i, _) =>
      s.db.outbox[i].kind == OrderConfirmed || s.db.outbox[i].kind == OrderCancelled ==> |Select(s.ledger.rows, o)| == 0
  }

  // ---------- the closed form of one delivery ----------

  lemma {:induction false} RunOne(s: Sys, a: Step)
    ensures Run(s, [a]) == Next(s, a)
  {
    assert [a][..0] == [];
    assert Run(s, []) == s;
  }

  lemma {:induction false} RunFive(s: Sys, a: Step, b: Step, c: Step, d: Step, e: Step)
    ensures Run(s, [a, b, c, d, e]) == Next(Next(Next(Next(Next(s, a), b), c), d), e)
  {
    RunOne(s, a);
    RunAppend(s, [a], [b]);
    RunOne(Run(s, [a]), b);
    RunAppend(s, [a] + [b], [c]);
    RunOne(Run(s, [a] + [b]), c);
    RunAppend(s, [a] + [b] + [c], [d]);
    RunOne(Run(s, [a] + [b] + [c]), d);
    RunAppend(s, [a] + [b] + [c] + [d], [e]);
    RunOne(Run(s, [a] + [b] + [c] + [d]), e);
    assert [a] + [b] + [c] + [d] + [e] == [a, b, c, d, e];
  }

  // The handler a payment outcome starts.
  function HandlerFor(s: Sys, m: PayMessage, event: Id): Handler
    requires m.order in s.db.orders
  {
    if m.kind == EvProcessed then Handler(Confirming, Some(event), m.payment, ToConfirm, s.db.orders[m.order])
    else Handler(Failing, Some(event), m.payment, ToCompensate, s.db.orders[m.order])
  }

  // A payment outcome for an order still open starts a handler in good standing.
  lemma {:induction false} StartsWell(s: Sys, i: nat, event: Id, init: map<Id, nat>)
    requires Inv(s, init) && i < |s.payOutbox|
             && (s.payOutbox[i].kind == EvProcessed || s.payOutbox[i].kind == EvFailed)
    ensures var m := s.payOutbox[i];
            && m.order in s.db.orders && s.db.orders[m.order].id == m.order
            && (!IsTerminal(s.db.orders[m.order].status) ==>
                  HandlerOk(ViewOf(s, m.order), HandlerFor(s, m, event))
                      && PairOk(PendingPayment, Lookup(s.db.sagas, m.order)))
  {
    var m := s.payOutbox[i];
    At(s, m.order, init);
    MessagesForMember(s.payOutbox, i);
    ViewTells(m.order, ViewOf(s, m.order), m);
  }

  function Closing(s: Sys, x: Handler, event: Id): Sys
    requires x.copy.id in s.db.orders
  {
    if x.kind == Confirming then
      s.(db := ClosedTables(s.db, x, Completed, OrderConfirmed), orderMarks := s.orderMarks + {event})
    else
      s.(db := ClosedTables(s.db, x, Compensated, OrderCancelled), orderMarks := s.orderMarks + {event},
         ledger := ReleaseOp(s.ledger, x.copy.id), releasing := s.releasing + {x.copy.id})
  }

  predicate FreshlyRead(s: Sys, h: Id, x: Handler, event: Id) {
    && h !in s.handlers && x.event == Some(event) && event !in s.orderMarks
    && x.copy.id in s.db.orders && x.copy == s.db.orders[x.copy.id] && x.copy.status == PendingPayment
    && PairOk(PendingPayment, Lookup(s.db.sagas, x.copy.id))
  }

  lemma {:induction false} ConfirmAlone(s: Sys, h: Id, x: Handler, event: Id)
    requires FreshlyRead(s, h, x, event) && x.kind == Confirming
    ensures CommitAndEnd(WithHandler(s, h, x), h, x, ConfirmTx(s.db, x.copy)) ==
            if Undone(Lookup(s.db.sagas, x.copy.id)) then s else Closing(s, x, event)
  {
    ConfirmExact(s.db, x.copy);
    assert s.handlers[h := x] - {h} == s.handlers;
  }

  lemma {:induction false} CompensateAlone(s: Sys, h: Id, x: Handler, event: Id)
    requires FreshlyRead(s, h, x, event) && x.kind == Failing && x.at == ToCompensate
    ensures Next(Next(WithHandler(s, h, x), Handling(h, Confirm)), Handling(h, Compensate)) ==
            WithHandler(s.(db := s.db.(sagas := s.db.sagas[x.copy.id := Compensating])), h, x.(at := ToRelease))
  {
    assert Next(WithHandler(s, h, x), Handling(h, Confirm)) == WithHandler(s, h, x);
    CompensateExact(s.db, x.copy.id);
    var y := x.(at := ToRelease);
    assert s.handlers[h := x][h := y] == s.handlers[h := y];
  }

  lemma {:induction false} FinishTables(s: Sys, h: Id, x: Handler, event: Id)
    requires FreshlyRead(s, h, x, event) && x.kind == Failing
    ensures FinishTx(s.db.(sagas := s.db.sagas[x.copy.id := Compensating]), x.copy, Status.PaymentFailed) ==
            Ok(ClosedTables(s.db, x, Compensated, OrderCancelled))
  {
    var o := x.copy.id;
    FinishExact(s.db.(sagas := s.db.sagas[o := Compensating]), x.copy, Status.PaymentFailed);
    assert s.db.sagas[o := Compensating][o := Compensated] == s.db.sagas[o := Compensated];
  }

  lemma {:induction false} FinishAlone(s: Sys, h: Id, x: Handler, event: Id)
    requires FreshlyRead(s, h, x, event) && x.kind == Failing
    ensures var o := x.copy.id;
            var s1 := s.(db := s.db.(sagas := s.db.sagas[o := Compensating]), ledger := ReleaseOp(s.ledger, o),
                releasing := s.releasing + {o});
            Next(WithHandler(s1, h, x.(at := ToFinish)), Handling(h, Finish)) == Closing(s, x, event)
  {
    FinishTables(s, h, x, event);
    assert s.handlers[h := x.(at := ToFinish)] - {h} == s.handlers;
  }

  // The steps of a handler started by a payment event, up to how its release call goes.
  function HandlerRun(s: Sys, h: Id, release: Call): Sys {
    Next(Next(Next(Next(s, Handling(h, Confirm)), Handling(h, Compensate)), Handling(h, CallRelease(release))),
        Handling(h, Finish))
  }

  lemma {:induction false} HandlerGone(s: Sys, h: Id, call: HandlerCall)
    requires h !in s.handlers
    ensures Next(s, Handling(h, call)) == s
  {
  }

  lemma {:induction false} AllGone(s: Sys, h: Id, release: Call)
    requires h !in s.handlers
    ensures HandlerRun(s, h, release) == s
  {
    HandlerGone(s, h, Confirm);
    HandlerGone(s, h, Compensate);
    HandlerGone(s, h, CallRelease(release));
    HandlerGone(s, h, Finish);
  }

  lemma {:induction false} OrdersSteps(s: Sys, d: Delivery)
    requires d.ToOrders? && Undisturbed(s, d)
    ensures var s1 := Next(s, DeliverToOrders(d.h, d.i, d.event));
            AfterDelivery(s, d) == HandlerRun(s1, d.h, Answered) && (s1 == s ==> AfterDelivery(s, d) == s)
  {
    RunFive(s, DeliverToOrders(d.h, d.i, d.event), Handling(d.h, Confirm), Handling(d.h, Compensate),
        Handling(d.h, CallRelease(Answered)), Handling(d.h, Finish));
  }

  // The handler a delivery of a payment outcome starts, run to its end.
  lemma {:induction false} HandlerAlone(s: Sys, h: Id, x: Handler, event: Id)
    requires FreshlyRead(s, h, x, event) && s.db.orders[x.copy.id].id == x.copy.id
    requires (x.kind == Confirming && x.at == ToConfirm) || (x.kind == Failing && x.at == ToCompensate)
    ensures HandlerRun(WithHandler(s, h, x), h, Answered) ==
            if x.kind == Confirming && Undone(Lookup(s.db.sagas, x.copy.id)) then s else Closing(s, x, event)
  {
    if x.kind == Confirming {
      ConfirmAlone(s, h, x, event);
    } else {
      FailSteps(s, h, x, event);
    }
  }

  lemma {:induction false} OrdersIgnored(s: Sys, d: Delivery, init: map<Id, nat>)
    requires Inv(s, init) && d.ToOrders? && Undisturbed(s, d) && (Settled(s, d) || d.event in s.orderMarks)
    ensures CoreOf(AfterDelivery(s, d)) == CoreOf(s)
  {
    var m, h := s.payOutbox[d.i], d.h;
    var s1 := Next(s, DeliverToOrders(h, d.i, d.event));
    OrdersSteps(s, d);
    if h in s1.handlers {
      StartsWell(s, d.i, d.event, init);
      assert s1 == WithHandler(s, h, HandlerFor(s, m, d.event));
      HandlerAlone(s, h, HandlerFor(s, m, d.event), d.event);
    } else {
      AllGone(s1, h, Answered);
    }
  }

  lemma {:induction false} OrdersActs(s: Sys, d: Delivery, init: map<Id, nat>)
    requires Inv(s, init) && d.ToOrders? && Undisturbed(s, d) && !Settled(s, d) && d.event !in s.orderMarks
    ensures OrderOf(s, d) in s.db.orders && s.db.orders[OrderOf(s, d)].id == OrderOf(s, d)
    ensures var x := HandlerFor(s, s.payOutbox[d.i], d.event);
            AfterDelivery(s, d) == Closing(s, x, d.event) && FreshlyRead(s, d.h, x, d.event)
  {
    OrdersSteps(s, d);
    StartsWell(s, d.i, d.event, init);
    var x := HandlerFor(s, s.payOutbox[d.i], d.event);
    assert Next(s, DeliverToOrders(d.h, d.i, d.event)) == WithHandler(s, d.h, x);
    HandlerAlone(s, d.h, x, d.event);
  }

  // From first read to closing transaction, a clean delivery of a payment outcome.
  lemma {:induction false} OrdersExact(s: Sys, d: Delivery, init: map<Id, nat>)
    requires Inv(s, init) && d.ToOrders? && Undisturbed(s, d)
    ensures Settled(s, d) || d.event in s.orderMarks ==> CoreOf(AfterDelivery(s, d)) == CoreOf(s)
    ensures !Settled(s, d) ==> OrderOf(s, d) in s.db.orders && s.db.orders[OrderOf(s, d)].id == OrderOf(s, d)
    ensures !Settled(s, d) && d.event !in s.orderMarks ==>
              AfterDelivery(s, d) == Closing(s, HandlerFor(s, s.payOutbox[d.i], d.event), d.event)
    ensures !Settled(s, d) && d.event !in s.orderMarks ==>
              FreshlyRead(s, d.h, HandlerFor(s, s.payOutbox[d.i], d.event), d.event)
  {
    if Settled(s, d) || d.event in s.orderMarks {
      OrdersIgnored(s, d, init);
      if !Settled(s, d) { StartsWell(s, d.i, d.event, init); }
    } else {
      OrdersActs(s, d, init);
    }
  }

  lemma {:induction false} ReleaseAlone(s: Sys, h: Id, x: Handler)
    requires x.at == ToRelease
    ensures Next(WithHandler(s, h, x), Handling(h, CallRelease(Answered))) ==
            WithHandler(s.(ledger := ReleaseOp(s.ledger, x.copy.id), releasing := s.releasing + {x.copy.id}), h,
                x.(at := ToFinish))
  {
    assert s.handlers[h := x][h := x.(at := ToFinish)] == s.handlers[h := x.(at := ToFinish)];
  }

  lemma {:induction false} UndoAlone(s: Sys, h: Id, x: Handler, event: Id)
    requires FreshlyRead(s, h, x, event) && x.kind == Failing
    ensures var s1 := s.(db := s.db.(sagas := s.db.sagas[x.copy.id := Compensating]));
            Closing(s, x, event) ==
            Next(Next(WithHandler(s1, h, x.(at := ToRelease)), Handling(h, CallRelease(Answered))), Handling(h, Finish))
  {
    ReleaseAlone(s.(db := s.db.(sagas := s.db.sagas[x.copy.id := Compensating])), h, x.(at := ToRelease));
    FinishAlone(s, h, x, event);
  }

  lemma {:induction false} FailSteps(s: Sys, h: Id, x: Handler, event: Id)
    requires FreshlyRead(s, h, x, event) && x.kind == Failing && x.at == ToCompensate
    ensures HandlerRun(WithHandler(s, h, x), h, Answered) == Closing(s, x, event)
  {
    CompensateAlone(s, h, x, event);
    UndoAlone(s, h, x, event);
  }

  lemma {:induction false} StockExact(s: Sys, d: Delivery)
    requires d.ToStock? && RowExists(s, d)
    ensures Settled(s, d) || d.event in s.stockMarks ==> CoreOf(AfterDelivery(s, d)) == CoreOf(s)
    ensures d.event !in s.stockMarks ==>
              AfterDelivery(s, d) ==
                  s.(stockMarks := s.stockMarks + {d.event},
                  ledger := ReactToOrder(s.ledger, s.db.outbox[d.i].kind, OrderOf(s, d)))
  {
    RunOne(s, DeliverToStock(d.i, d.event));
    if Settled(s, d) && (s.db.outbox[d.i].kind == OrderConfirmed || s.db.outbox[d.i].kind == OrderCancelled) {
      NothingToGiveUp(s.ledger, OrderOf(s, d));
    }
  }

  // Charging for an order that can be charged leaves a payment; otherwise nothing is stored.
  lemma {:induction false} ChargeWorks(s: Sys, e: OrderEvent, event: Id, freshId: Id, breakerOpen: bool)
    requires e.kind == OrderReadyForPayment && freshId !in s.streams && freshId != NIL
    requires e.order != NIL && e.customer != NIL && |e.currency| > 0
    ensures var s' := ChargeFor(s, e, event, freshId, breakerOpen, true);
            if HasPayment(s.streams, e.order) || e.total <= 0 || event in s.payMarks then CoreOf(s') == CoreOf(s)
            else HasPayment(s'.streams, e.order)
  {
    var c := ProcessPayment(s.streams, e.order, e.customer, e.total, e.currency, freshId, breakerOpen, false);
    if !HasPayment(s.streams, e.order) && e.total > 0 {
      assert BelongsTo(c.streams[freshId], e.order);
    }
  }

  lemma {:induction false} PaymentSteps(s: Sys, d: Delivery)
    requires d.ToPayment? && Undisturbed(s, d)
    ensures AfterDelivery(s, d) == ChargeFor(s, s.db.outbox[d.i], d.event, d.freshId, d.breakerOpen, true)
  {
    RunOne(s, DeliverToPayment(d.i, d.event, d.freshId, d.breakerOpen, true));
  }

  lemma {:induction false} PaymentExact(s: Sys, d: Delivery, init: map<Id, nat>)
    requires Inv(s, init) && d.ToPayment? && Undisturbed(s, d)
    ensures Settled(s, d) || d.event in s.payMarks ==> CoreOf(AfterDelivery(s, d)) == CoreOf(s)
    ensures AfterDelivery(s, d) == ChargeFor(s, s.db.outbox[d.i], d.event, d.freshId, d.breakerOpen, true)
    ensures !Settled(s, d) && d.event !in s.payMarks ==> HasPayment(AfterDelivery(s, d).streams, OrderOf(s, d))
  {
    PaymentSteps(s, d);
    var e := s.db.outbox[d.i];
    if e.kind == OrderReadyForPayment {
      At(s, e.order, init);
      EventsForMember(s.db.outbox, d.i);
      ViewAnnounces(e.order, ViewOf(s, e.order), e);
      ChargeWorks(s, e, d.event, d.freshId, d.breakerOpen);
    }
  }

  // ---------- one delivery settles a row, and it stays settled ----------

  lemma {:induction false} SettledChangesNothing(s: Sys, d: Delivery, init: map<Id, nat>)
    requires Inv(s, init) && Undisturbed(s, d) && Settled(s, d)
    ensures CoreOf(AfterDelivery(s, d)) == CoreOf(s)
  {
    if d.ToOrders? {
      OrdersExact(s, d, init);
    } else if d.ToStock? {
      StockExact(s, d);
    } else {
      PaymentExact(s, d, init);
    }
  }

  lemma {:induction false} DeliveryKeeps(s: Sys, d: Delivery, init: map<Id, nat>)
    requires Inv(s, init) && RowExists(s, d)
    ensures Inv(AfterDelivery(s, d), init) && DbMonotone(s.db, AfterDelivery(s, d).db)
            && RowExists(AfterDelivery(s, d), d)
  {
    RunKeeps(s, Script(d), init);
    OutboxGrowsRun(s, Script(d));
  }

  lemma {:induction false} OutboxGrowsRun(s: Sys, steps: seq<Step>)
    ensures s.payOutbox <= Run(s, steps).payOutbox
  {
    if |steps| > 0 {
      OutboxGrowsRun(s, steps[..|steps| - 1]);
      PaymentsLast(Run(s, steps[..|steps| - 1]), steps[|steps| - 1]);
    }
  }

  lemma {:induction false} ClosingSettles(s: Sys, d: Delivery)
    requires d.ToOrders? && RowExists(s, d) && OrderOf(s, d) in s.db.orders
             && s.db.orders[OrderOf(s, d)].id == OrderOf(s, d)
    ensures var s' := Closing(s, HandlerFor(s, s.payOutbox[d.i], d.event), d.event);
            RowExists(s', d) && Settled(s', d)
  {
  }

  lemma {:induction false} ReactionSettles(s: Sys, d: Delivery, s': Sys)
    requires d.ToStock? && RowExists(s, d) && s'.db == s.db
    requires s'.ledger == ReactToOrder(s.ledger, s.db.outbox[d.i].kind, OrderOf(s, d))
    ensures Settled(s', d)
  {
    SelectAfterSetStatus(s.ledger.rows, OrderOf(s, d), Released);
    SelectAfterSetStatus(s.ledger.rows, OrderOf(s, d), RowStatus.Committed);
  }

  lemma {:induction false} CleanSettles(s: Sys, d: Delivery, init: map<Id, nat>)
    requires Inv(s, init) && Clean(s, d)
    ensures RowExists(AfterDelivery(s, d), d) && Settled(AfterDelivery(s, d), d)
  {
    if Settled(s, d) {
      SettledChangesNothing(s, d, init);
      SameCoreSameWork(s, AfterDelivery(s, d), d);
    } else if d.ToOrders? {
      OrdersExact(s, d, init);
      ClosingSettles(s, d);
    } else if d.ToStock? {
      StockExact(s, d);
      ReactionSettles(s, d, AfterDelivery(s, d));
    } else {
      PaymentExact(s, d, init);
      ChargeKeepsDb(s, s.db.outbox[d.i], d);
    }
  }

  lemma {:induction false} SameCoreSameWork(s: Sys, s': Sys, d: Delivery)
    requires CoreOf(s) == CoreOf(s') && RowExists(s, d)
    ensures RowExists(s', d) && (Settled(s', d) <==> Settled(s, d))
  {
  }

  lemma {:induction false} ChargeKeepsDb(s: Sys, e: OrderEvent, d: Delivery)
    requires d.ToPayment?
    ensures ChargeFor(s, e, d.event, d.freshId, d.breakerOpen, true).db == s.db
  {
  }

  // ---------- settled rows stay settled, whatever else happens ----------

  // An order past pending that has nothing reserved never has again.
  lemma {:induction false} GivenUpLasts(s: Sys, step: Step, o: Id, init: map<Id, nat>)
    requires Inv(s, init) && o in s.db.orders && s.db.orders[o].status != Pending && |Select(s.ledger.rows, o)| == 0
    ensures |Select(Next(s, step).ledger.rows, o)| == 0
  {
    StepShare(s, step, o, init);
    SelectRowsOf(s.ledger.rows, o);
    SelectRowsOf(Next(s, step).ledger.rows, o);
    if ViewOf(Next(s, step), o) != ViewOf(s, o) {
      RowsMove(s, step, o, ViewOf(s, o), ViewOf(Next(s, step), o));
    }
  }

  // A stream once opened for an order stays.
  predicate StreamsGrow(a: Streams, b: Streams) {
    forall id | id in a && |a[id]| > 0 :: id in b && |b[id]| > 0 && b[id][0] == a[id][0]
  }

  // Payments and their announcements are only added.
  predicate PaymentsGrow(s: Sys, s': Sys) {
    StreamsGrow(s.streams, s'.streams) && s.payOutbox <= s'.payOutbox
  }

  lemma {:induction false} RefundGrows(s: Sys, payment: Id, reason: string)
    requires Refunded(s, payment, reason).Ok?
    ensures PaymentsGrow(s, Refunded(s, payment, reason).value)
  {
  }

  lemma {:induction false} RefundStepGrows(s: Sys, h: Id, x: Handler, call: Call)
    ensures PaymentsGrow(s, RefundStep(s, h, x, call))
  {
    var s1 := s.(refunding := s.refunding + {x.payment});
    if x.kind.Cancelling? && Refunded(s1, x.payment, x.kind.reason).Ok? {
      RefundGrows(s1, x.payment, x.kind.reason);
    }
  }

  lemma {:induction false} ChargeGrows(s: Sys, e: OrderEvent, event: Id, freshId: Id, breakerOpen: bool, marks: bool)
    ensures PaymentsGrow(s, ChargeFor(s, e, event, freshId, breakerOpen, marks))
  {
  }

  lemma {:induction false} PaymentsLast(s: Sys, step: Step)
    ensures PaymentsGrow(s, Next(s, step))
  {
    if step.LateRefund? {
      if Refunded(s, step.payment, step.reason).Ok? {
        RefundGrows(s, step.payment, step.reason);
      }
    } else if step.DeliverToPayment? {
      if step.i < |s.db.outbox| {
        ChargeGrows(s, s.db.outbox[step.i], step.event, step.freshId, step.breakerOpen, step.marks);
      }
    } else if step.Handling? && step.call.CallRefund? {
      if step.h in s.handlers {
        RefundStepGrows(s, step.h, s.handlers[step.h], step.call.refund);
      }
    } else {
      OtherStepsKeepStreams(s, step);
    }
  }

  lemma {:induction false} OtherStepsKeepStreams(s: Sys, step: Step)
    requires !step.LateRefund? && !step.DeliverToPayment? && (step.Handling? ==> !step.call.CallRefund?)
    ensures Next(s, step).streams == s.streams && Next(s, step).payOutbox == s.payOutbox
  {
    match step
    case Handling(h, call) => if h in s.handlers { HandlerKeepsStreams(s, h, call); }
    case Creating(o, call) => if o in s.creates { CreateKeepsStreams(s, call, o, s.creates[o]); }
    case _ =>
  }

  lemma {:induction false} CreateKeepsStreams(s: Sys, call: CreateCall, o: Id, c: Create)
    ensures CreateStep(s, call, o, c).streams == s.streams && CreateStep(s, call, o, c).payOutbox == s.payOutbox
  {
  }

  lemma {:induction false} HandlerKeepsStreams(s: Sys, h: Id, call: HandlerCall)
    requires h in s.handlers && !call.CallRefund?
    ensures var s' := HandlerStep(s, call, h, s.handlers[h]);
            s'.streams == s.streams && s'.payOutbox == s.payOutbox
  {
  }

  lemma {:induction false} HasPaymentLasts(a: Streams, b: Streams, o: Id)
    requires StreamsGrow(a, b) && HasPayment(a, o)
    ensures HasPayment(b, o)
  {
    var id :| id in a && BelongsTo(a[id], o);
    assert BelongsTo(b[id], o);
  }

  lemma {:induction false} SettledStockLasts(s: Sys, step: Step, d: Delivery, init: map<Id, nat>)
    requires Inv(s, init) && d.ToStock? && RowExists(s, d) && Settled(s, d)
    requires RowExists(Next(s, step), d) && Next(s, step).db.outbox[d.i] == s.db.outbox[d.i]
    ensures Settled(Next(s, step), d)
  {
    var e := s.db.outbox[d.i];
    if e.kind == OrderConfirmed || e.kind == OrderCancelled {
      ReadyMeansPendingPayment(s, d.i, init);
      GivenUpLasts(s, step, e.order, init);
    }
  }

  lemma {:induction false} SettledPaymentLasts(s: Sys, step: Step, d: Delivery, init: map<Id, nat>)
    requires Inv(s, init) && d.ToPayment? && RowExists(s, d) && Settled(s, d)
    ensures RowExists(Next(s, step), d) && Settled(Next(s, step), d)
  {
    StepMonotone(s, step, init);
    PaymentsLast(s, step);
    if HasPayment(s.streams, OrderOf(s, d)) {
      HasPaymentLasts(s.streams, Next(s, step).streams, OrderOf(s, d));
    }
  }

  lemma {:induction false} SettledOrderLasts(s: Sys, step: Step, d: Delivery, init: map<Id, nat>)
    requires Inv(s, init) && d.ToOrders? && RowExists(s, d) && Settled(s, d)
    ensures RowExists(Next(s, step), d) && Settled(Next(s, step), d)
  {
    StepMonotone(s, step, init);
    PaymentsLast(s, step);
    if OrderOf(s, d) in s.db.orders {
      OrderSettledLasts(s.db, Next(s, step).db, OrderOf(s, d));
    }
  }

  lemma {:induction false} OrderSettledLasts(t: OrderTables, t': OrderTables, o: Id)
    requires DbMonotone(t, t') && o in t.orders
    ensures o in t'.orders && (IsTerminal(t.orders[o].status) ==> IsTerminal(t'.orders[o].status))
    ensures Undone(Lookup(t.sagas, o)) ==> Undone(Lookup(t'.sagas, o))
  {
  }

  lemma {:induction false} SettledOneStep(s: Sys, step: Step, d: Delivery, init: map<Id, nat>)
    requires Inv(s, init) && RowExists(s, d) && Settled(s, d)
    ensures RowExists(Next(s, step), d) && Settled(Next(s, step), d)
  {
    match d
    case ToStock(_, _) =>
      StepMonotone(s, step, init);
      SettledStockLasts(s, step, d, init);
    case ToPayment(_, _, _, _) => SettledPaymentLasts(s, step, d, init);
    case ToOrders(_, _, _) => SettledOrderLasts(s, step, d, init);
  }

  lemma {:induction false} SettledForGood(s: Sys, steps: seq<Step>, d: Delivery, init: map<Id, nat>)
    requires Inv(s, init) && RowExists(s, d) && Settled(s, d)
    ensures RowExists(Run(s, steps), d) && Settled(Run(s, steps), d)
  {
    if |steps| > 0 {
      var front := steps[..|steps| - 1];
      SettledForGood(s, front, d, init);
      RunKeeps(s, front, init);
      SettledOneStep(Run(s, front), steps[|steps| - 1], d, init);
    }
  }

  // Once a row was cleanly delivered, a redelivery at any later time, whatever happened in between
  // and under any event id, changes no order, saga, reservation, counter, movement, payment or
  // outbox row.
  lemma {:induction false} RedeliveryChangesNothing(s0: Sys, steps: seq<Step>, init: map<Id, nat>, d: Delivery,
                                                    more: seq<Step>, d': Delivery)
    requires Initial(s0, init) && Clean(Run(s0, steps), d) && SameRow(d, d')
    requires Undisturbed(Run(AfterDelivery(Run(s0, steps), d), more), d')
    ensures var t := Run(AfterDelivery(Run(s0, steps), d), more);
            CoreOf(AfterDelivery(t, d')) == CoreOf(t)
  {
    var s := Run(s0, steps);
    var u := AfterDelivery(s, d);
    Reachable(s0, steps, init);
    DeliveryKeeps(s, d, init);
    CleanSettles(s, d, init);
    RunKeeps(u, more, init);
    SettledForGood(u, more, d, init);
    SettledSameRow(Run(u, more), d, d');
    SettledChangesNothing(Run(u, more), d', init);
  }

  lemma {:induction false} SettledSameRow(s: Sys, d: Delivery, d': Delivery)
    requires SameRow(d, d') && RowExists(s, d) && Settled(s, d)
    ensures RowExists(s, d') && Settled(s, d')
  {
  }
}
