/** The operations of the order service are runs of the saga system: what a method leaves behind,
    undisturbed, is what its steps leave behind. */
module ServiceRefinement {
  import opened Common
  import opened Orders
  import opened StockLedger
  import opened EventStore
  import opened SagaSystem
  import opened SagaInvariant
  import opened SagaTheorems
  import opened SagaDelivery
  import OS = OrderRuns
  import PaymentService

  // ---------- the payments consumer ----------

  // The steps of one handling of a payment event, whatever its release does.
  function Handled(d: Delivery, release: Call): (r: seq<Step>)
    requires d.ToOrders?
    ensures release == Answered ==> r == Script(d)
  {
    [DeliverToOrders(d.h, d.i, d.event), Handling(d.h, Confirm), Handling(d.h, Compensate),
     Handling(d.h, CallRelease(release)), Handling(d.h, Finish)]
  }

  lemma {:induction false} ConfirmRunCloses(s: Sys, h: Id, x: Handler, event: Id)
    requires FreshlyRead(s, h, x, event) && x.kind == Confirming && s.db.orders[x.copy.id].id == x.copy.id
    ensures OS.ConfirmRun(s.db, x.copy.id) ==
            if Undone(Lookup(s.db.sagas, x.copy.id)) then (s.db, Failed(Conflict)) else (Closing(s, x, event).db, Done)
  {
    ConfirmExact(s.db, x.copy);
  }

  lemma {:induction false} ConfirmSteps(s: Sys, h: Id, x: Handler, event: Id, release: Call)
    requires FreshlyRead(s, h, x, event) && x.kind == Confirming && x.at == ToConfirm
    ensures HandlerRun(WithHandler(s, h, x), h, release) ==
            if Undone(Lookup(s.db.sagas, x.copy.id)) then s else Closing(s, x, event)
  {
    ConfirmAlone(s, h, x, event);
    var s1 := Next(WithHandler(s, h, x), Handling(h, Confirm));
    HandlerGone(s1, h, Compensate);
    HandlerGone(s1, h, CallRelease(release));
    HandlerGone(s1, h, Finish);
  }

  lemma {:induction false} FailRunCloses(s: Sys, h: Id, x: Handler, event: Id, release: Call)
    requires FreshlyRead(s, h, x, event) && x.kind == Failing && s.db.orders[x.copy.id].id == x.copy.id
    ensures OS.FailRun(s.db, s.ledger, x.copy.id, release) ==
            if release == Answered then OS.After(Closing(s, x, event).db, Closing(s, x, event).ledger, Done)
            else OS.After(s.db.(sagas := s.db.sagas[x.copy.id := Compensating]),
              ReleasedBy(s.ledger, x.copy.id, release), Failed(Unavailable))
  {
    var o := x.copy.id;
    CompensateExact(s.db, o);
    FinishTables(s, h, x, event);
  }

  // A compensation whose release brings no answer ends behind its checkpoint.
  lemma {:induction false} UnansweredSteps(s: Sys, h: Id, x: Handler, event: Id, release: Call)
    requires FreshlyRead(s, h, x, event) && x.kind == Failing && x.at == ToCompensate && release != Answered
    ensures var s' := HandlerRun(WithHandler(s, h, x), h, release);
            && s'.db == s.db.(sagas := s.db.sagas[x.copy.id := Compensating])
            && s'.ledger == ReleasedBy(s.ledger, x.copy.id, release) && s'.orderMarks == s.orderMarks
  {
    CompensateAlone(s, h, x, event);
    var s1 := Next(Next(WithHandler(s, h, x), Handling(h, Confirm)), Handling(h, Compensate));
    HandlerGone(Next(s1, Handling(h, CallRelease(release))), h, Finish);
  }

  // In every reachable state the consumer's handling of a payment event, however its release call goes,
  // leaves the orders, sagas, outbox, stock and processed marks its steps leave.
  lemma {:induction false} ConsumerIsDelivery(s: Sys, d: Delivery, release: Call, init: map<Id, nat>)
    requires Inv(s, init) && d.ToOrders? && Undisturbed(s, d)
    ensures var m := s.payOutbox[d.i];
            var (a, marks) := OS.HandleRun(s.db, s.ledger, s.orderMarks, d.event, m.kind, m.order, release);
            var s' := Run(s, Handled(d, release));
            s'.db == a.tables && s'.ledger == a.ledger && s'.orderMarks == marks
  {
    var m, h := s.payOutbox[d.i], d.h;
    RunFive(s, DeliverToOrders(h, d.i, d.event), Handling(h, Confirm), Handling(h, Compensate),
        Handling(h, CallRelease(release)), Handling(h, Finish));
    assert Run(s, Handled(d, release)) == HandlerRun(Next(s, DeliverToOrders(h, d.i, d.event)), h, release);
    if m.kind == EvProcessed || m.kind == EvFailed {
      StartsWell(s, d.i, d.event, init);
    }
    if ActsOn(s, d) {
      ReadsOpenOrder(s, d, init);
      OpenOrderRun(s, d, release);
    } else {
      IgnoredRun(s, d, release);
    }
  }

  // The consumer goes on to change the order the event is about.
  predicate ActsOn(s: Sys, d: Delivery)
    requires d.ToOrders? && RowExists(s, d)
  {
    var m := s.payOutbox[d.i];
    && (m.kind == EvProcessed || m.kind == EvFailed) && d.event !in s.orderMarks
    && m.order in s.db.orders && !IsTerminal(s.db.orders[m.order].status)
  }

  lemma {:induction false} IgnoredRun(s: Sys, d: Delivery, release: Call)
    requires d.ToOrders? && Undisturbed(s, d) && !ActsOn(s, d)
    requires var m := s.payOutbox[d.i];
             m.kind == EvProcessed || m.kind == EvFailed ==> m.order in s.db.orders
    ensures var m, h := s.payOutbox[d.i], d.h;
            var (a, marks) := OS.HandleRun(s.db, s.ledger, s.orderMarks, d.event, m.kind, m.order, release);
            var s' := HandlerRun(Next(s, DeliverToOrders(h, d.i, d.event)), h, release);
            s'.db == a.tables && s'.ledger == a.ledger && s'.orderMarks == marks
  {
    AllGone(Next(s, DeliverToOrders(d.h, d.i, d.event)), d.h, release);
  }

  lemma {:induction false} OpenOrderRun(s: Sys, d: Delivery, release: Call)
    requires d.ToOrders? && Undisturbed(s, d)
             && (s.payOutbox[d.i].kind == EvProcessed || s.payOutbox[d.i].kind == EvFailed)
    requires OrderOf(s, d) in s.db.orders && s.db.orders[OrderOf(s, d)].id == OrderOf(s, d)
    requires FreshlyRead(s, d.h, HandlerFor(s, s.payOutbox[d.i], d.event), d.event)
    ensures var m, h := s.payOutbox[d.i], d.h;
            var (a, marks) := OS.HandleRun(s.db, s.ledger, s.orderMarks, d.event, m.kind, m.order, release);
            var s1 := Next(s, DeliverToOrders(h, d.i, d.event));
            var s' := HandlerRun(s1, h, release);
            s'.db == a.tables && s'.ledger == a.ledger && s'.orderMarks == marks
  {
    var m, h := s.payOutbox[d.i], d.h;
    var x := HandlerFor(s, m, d.event);
    assert Next(s, DeliverToOrders(h, d.i, d.event)) == WithHandler(s, h, x);
    if m.kind == EvProcessed {
      ConfirmSteps(s, h, x, d.event, release);
      ConfirmRunCloses(s, h, x, d.event);
    } else {
      FailRunCloses(s, h, x, d.event, release);
      if release == Answered {
        FailSteps(s, h, x, d.event);
      } else {
        UnansweredSteps(s, h, x, d.event, release);
      }
    }
  }

  lemma {:induction false} ReadsOpenOrder(s: Sys, d: Delivery, init: map<Id, nat>)
    requires Inv(s, init) && d.ToOrders? && Undisturbed(s, d) && d.event !in s.orderMarks
    requires OrderOf(s, d) in s.db.orders && !IsTerminal(s.db.orders[OrderOf(s, d)].status)
    requires s.payOutbox[d.i].kind == EvProcessed || s.payOutbox[d.i].kind == EvFailed
    ensures FreshlyRead(s, d.h, HandlerFor(s, s.payOutbox[d.i], d.event), d.event)
  {
    StartsWell(s, d.i, d.event, init);
  }

  // ---------- the payment service's consumer ----------

  // A charge step of the system is the consumer's handling of that row, with its mark stored or not.
  lemma {:induction false} ChargeIsConsume(s: Sys, e: OrderEvent, event: Id, freshId: Id, breakerOpen: bool,
                                           marks: bool)
    requires freshId !in s.streams && freshId != NIL
    ensures var c := PaymentService.Consume(s.streams, s.payMarks, event, e.kind, e.order, e.customer, e.total,
            e.currency, freshId, breakerOpen, false, !marks);
            var s' := ChargeFor(s, e, event, freshId, breakerOpen, marks);
            s'.streams == c.streams && s'.payMarks == c.marks
  {
  }

  // ---------- the create handler ----------

  function CreateScript(ord: Order, reserve: Call, save: Call, undo: Call): seq<Step> {
    [BeginCreate(ord), Creating(ord.id, CallReserve(reserve)), Creating(ord.id, SaveOrder(save)),
     Creating(ord.id, CallUndo(undo))] +
    [Creating(ord.id, ReadForMark), Creating(ord.id, Mark)]
  }

  lemma {:induction false} RunSix(s: Sys, a: Step, b: Step, c: Step, d: Step, e: Step, f: Step)
    ensures Run(s, [a, b, c, d] + [e, f]) == Next(Next(Next(Next(Next(Next(s, a), b), c), d), e), f)
  {
    RunFive(s, a, b, c, d, e);
    RunAppend(s, [a, b, c, d, e], [f]);
    RunOne(Run(s, [a, b, c, d, e]), f);
    assert [a, b, c, d] + [e, f] == [a, b, c, d, e] + [f];
  }

  // A request nobody waits for any more takes no further step of its own.
  lemma {:induction false} Idle(s: Sys, o: Id, call: CreateCall)
    requires o !in s.creates || s.creates[o].Abandoned?
    requires call != LateReserve && call != CrashCreate
    ensures Next(s, Creating(o, call)) == s
  {
  }

  lemma {:induction false} IdleTail(s: Sys, o: Id, save: Call, u: CreateCall)
    requires o !in s.creates || s.creates[o].Abandoned?
    requires u.CallUndo?
    ensures Next(Next(Next(Next(s, Creating(o, SaveOrder(save))), Creating(o, u)), Creating(o, ReadForMark)),
            Creating(o, Mark)) == s
  {
    Idle(s, o, SaveOrder(save));
    Idle(s, o, u);
    Idle(s, o, ReadForMark);
    Idle(s, o, Mark);
  }

  // How the reservation request ends.
  lemma {:induction false} ReserveStage(s: Sys, ord: Order, reserve: Call)
    requires ord.id in s.creates && s.creates[ord.id] == Reserving(ord)
    ensures var s' := Next(s, Creating(ord.id, CallReserve(reserve)));
            && s'.db == s.db
            && s'.ledger == (if reserve != Lost && ReserveFor(s, ord).Ok? then ReserveFor(s, ord).value else s.ledger)
            && (if reserve == Answered && ReserveFor(s, ord).Ok? then ord.id in s'.creates
                && s'.creates[ord.id] == Saving(ord)
                else ord.id !in s'.creates || s'.creates[ord.id].Abandoned?)
  {
  }

  lemma {:induction false} UndoTail(s: Sys, ord: Order, undo: Call)
    requires ord.id in s.creates && s.creates[ord.id] == Undoing(ord)
    ensures var u := Next(s, Creating(ord.id, CallUndo(undo)));
            var s' := Next(Next(u, Creating(ord.id, ReadForMark)), Creating(ord.id, Mark));
            s'.db == s.db && s'.ledger == ReleasedBy(s.ledger, ord.id, undo)
  {
    var u := Next(s, Creating(ord.id, CallUndo(undo)));
    Idle(u, ord.id, ReadForMark);
    Idle(u, ord.id, Mark);
  }

  lemma {:induction false} MarkTail(s: Sys, ord: Order, undo: Call)
    requires ord.id in s.creates && s.creates[ord.id] == Marking(ord) && ord.id in s.db.orders
    ensures var u := Next(s, Creating(ord.id, CallUndo(undo)));
            var s' := Next(Next(u, Creating(ord.id, ReadForMark)), Creating(ord.id, Mark));
            s'.db == OS.MarkPendingRun(s.db, ord.id).0 && s'.ledger == s.ledger
  {
    assert Next(s, Creating(ord.id, CallUndo(undo))) == s;
  }

  lemma {:induction false} SaveTail(s: Sys, ord: Order, save: Call, undo: Call)
    requires ord.id in s.creates && s.creates[ord.id] == Saving(ord)
    ensures var t := Next(s, Creating(ord.id, SaveOrder(save)));
            var u := Next(t, Creating(ord.id, CallUndo(undo)));
            var s' := Next(Next(u, Creating(ord.id, ReadForMark)), Creating(ord.id, Mark));
            var saved := if save == Lost then Err(Error.Unavailable) else SaveOrderTx(s.db, ord);
            var db := if saved.Err? then s.db else saved.value;
            if saved.Err? || save == Unanswered then s'.db == db && s'.ledger == ReleasedBy(s.ledger, ord.id, undo)
            else s'.db == OS.MarkPendingRun(db, ord.id).0 && s'.ledger == s.ledger
  {
    var t := Next(s, Creating(ord.id, SaveOrder(save)));
    if t.creates[ord.id] == Undoing(ord) {
      UndoTail(t, ord, undo);
    } else {
      MarkTail(t, ord, undo);
    }
  }

  // Create, whatever its remote calls do, is a run of the create handler's steps.
  lemma {:induction false} CreateIsRun(s: Sys, ord: Order, reserve: Call, save: Call, undo: Call)
    requires IsNew(ord) && ord.id !in s.used
    ensures var a := OS.CreateRun(s.db, s.ledger, ord, reserve, save, undo);
            var s' := Run(s, CreateScript(ord, reserve, save, undo));
            s'.db == a.tables && s'.ledger == a.ledger
  {
    var u := CallUndo(undo);
    var o := ord.id;
    RunSix(s, BeginCreate(ord), Creating(o, CallReserve(reserve)), Creating(o, SaveOrder(save)), Creating(o, u),
        Creating(o, ReadForMark), Creating(o, Mark));
    var s1 := Next(s, BeginCreate(ord));
    assert s1.creates[o] == Reserving(ord) && s1.db == s.db && s1.ledger == s.ledger;
    var s2 := Next(s1, Creating(o, CallReserve(reserve)));
    ReserveStage(s1, ord, reserve);
    if reserve == Answered && ReserveFor(s, ord).Ok? {
      SaveTail(s2, ord, save, undo);
    } else {
      IdleTail(s2, o, save, u);
    }
  }

  // ---------- FailAfterPayment ----------

  // The last two steps of a compensation.
  lemma {:induction false} UndoIsSteps(s: Sys, h: Id, x: Handler, release: Call)
    requires h in s.handlers && s.handlers[h] == x && x.at == ToRelease && x.event == None && x.kind.Cancelling?
    ensures var a := OS.UndoRun(s.db, s.ledger, x.copy, release, Cancelled);
            var s' := Next(Next(s, Handling(h, CallRelease(release))), Handling(h, Finish));
            s'.db == a.tables && s'.ledger == a.ledger && s'.streams == s.streams
  {
    var s1 := Next(s, Handling(h, CallRelease(release)));
    assert s1.db == s.db && s1.ledger == ReleasedBy(s.ledger, x.copy.id, release) && s1.streams == s.streams;
    if release == Answered {
      assert s1.handlers[h] == x.(at := ToFinish);
    } else {
      assert h !in s1.handlers;
    }
  }

  lemma {:induction false} RefundIsStep(s: Sys, h: Id, x: Handler, refund: Call)
    requires h in s.handlers && s.handlers[h] == x && x.at == ToRefund && x.kind.Cancelling?
    ensures var (streams, r) := if refund == Lost then (s.streams, Failed(Error.Unavailable))
            else PaymentService.RefundPayment(s.streams, x.payment, x.kind.reason);
            var s' := Next(s, Handling(h, CallRefund(refund)));
            && s'.db == s.db && s'.ledger == s.ledger && s'.streams == streams
            && (if r == Done && refund == Answered then h in s'.handlers && s'.handlers[h] == x.(at := ToRelease)
                else h !in s'.handlers)
  {
  }

  lemma {:induction false} RefundAndUndo(s: Sys, h: Id, x: Handler, refund: Call, release: Call)
    requires h in s.handlers && s.handlers[h] == x && x.at == ToRefund && x.event == None && x.kind.Cancelling?
    ensures var (streams, r) := if refund == Lost then (s.streams, Failed(Error.Unavailable))
            else PaymentService.RefundPayment(s.streams, x.payment, x.kind.reason);
            var s' := Next(Next(Next(s, Handling(h, CallRefund(refund))), Handling(h, CallRelease(release))),
                Handling(h, Finish));
            var a := if r == Done && refund == Answered then OS.UndoRun(s.db, s.ledger, x.copy, release, Cancelled)
                else OS.After(s.db, s.ledger, r);
            s'.db == a.tables && s'.ledger == a.ledger && s'.streams == streams
  {
    RefundIsStep(s, h, x, refund);
    var s1 := Next(s, Handling(h, CallRefund(refund)));
    if h in s1.handlers {
      UndoIsSteps(s1, h, x.(at := ToRelease), release);
    } else {
      HandlerGone(s1, h, CallRelease(release));
      HandlerGone(s1, h, Finish);
    }
  }

  // Its first two steps read the order and set the checkpoint.
  lemma {:induction false} CancelBegins(s: Sys, h: Id, o: Id, payment: Id, reason: string)
    requires h !in s.handlers && payment in s.streams && PaymentService.BelongsTo(s.streams[payment], o)
    requires o in s.db.orders && s.db.orders[o].id == o
    ensures var s' := Next(Next(s, StartCancel(h, payment, reason)), Handling(h, Compensate));
            && s'.ledger == s.ledger && s'.streams == s.streams
            && if !IsTerminal(s.db.orders[o].status) && CompensateTx(s.db, o).Ok?
               then s'.db == CompensateTx(s.db, o).value && h in s'.handlers
                    && s'.handlers[h] == Handler(Cancelling(reason), None, payment, ToRefund, s.db.orders[o])
               else s'.db == s.db && h !in s'.handlers
  {
    var x := Handler(Cancelling(reason), None, payment, ToCompensate, s.db.orders[o]);
    assert Next(s, StartCancel(h, payment, reason)) == if IsTerminal(x.copy.status) then s else WithHandler(s, h, x);
  }

  // FailAfterPayment, whatever its remote calls do, is a run of its handler's steps.
  lemma {:induction false} CancelIsRun(s: Sys, h: Id, o: Id, payment: Id, reason: string, refund: Call, release: Call)
    requires h !in s.handlers && payment in s.streams && PaymentService.BelongsTo(s.streams[payment], o)
    requires o in s.db.orders && s.db.orders[o].id == o
    ensures var (a, streams) := OS.CancelRun(s.db, s.ledger, s.streams, o, payment, reason, refund, release);
            var s' := Run(s, [StartCancel(h, payment, reason), Handling(h, Compensate),
                Handling(h, CallRefund(refund)), Handling(h, CallRelease(release)), Handling(h, Finish)]);
            s'.db == a.tables && s'.ledger == a.ledger && s'.streams == streams
  {
    RunFive(s, StartCancel(h, payment, reason), Handling(h, Compensate), Handling(h, CallRefund(refund)),
        Handling(h, CallRelease(release)), Handling(h, Finish));
    CancelBegins(s, h, o, payment, reason);
    var s2 := Next(Next(s, StartCancel(h, payment, reason)), Handling(h, Compensate));
    if h in s2.handlers {
      RefundAndUndo(s2, h, s2.handlers[h], refund, release);
    } else {
      HandlerGone(s2, h, CallRefund(refund));
      HandlerGone(s2, h, CallRelease(release));
      HandlerGone(s2, h, Finish);
    }
  }
}
