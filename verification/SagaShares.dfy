/** What one step does to each order's share of the state: the order it acts for changes in one of a few
    ways, and every other order's share stays as it is. */
module SagaShares {
  import opened Common
  import opened Orders
  import opened StockLedger
  import opened ReserveLaws
  import opened StockFrames
  import opened EventStore
  import opened PaymentService
  import opened Inventory
  import opened SagaSystem
  import opened SagaInvariant
  import opened SagaFrames
  import opened SagaSteps
  import P = Payment

  // The order a step acts for; a step that only starts a handler acts for none.
  function Owner(s: Sys, step: Step): Id {
    match step
    case BeginCreate(ord) => ord.id
    case Creating(o, _) => o
    case Handling(h, _) => if h in s.handlers then s.handlers[h].copy.id else NIL
    case LateRelease(o) => o
    case LateRefund(payment, _) =>
      if payment in s.streams && |s.streams[payment]| > 0 && s.streams[payment][0].PaymentInitiated?
      then s.streams[payment][0].order else NIL
    case DeliverToPayment(i, _, _, _, _) => if i < |s.db.outbox| then s.db.outbox[i].order else NIL
    case DeliverToStock(i, _) => if i < |s.db.outbox| then s.db.outbox[i].order else NIL
    case _ => NIL
  }

  // ---------- ways a share changes ----------

  // Its reservations are given back.
  function Freed(o: Id, v: View): View {
    v.(rows := SetStatus(v.rows, o, Released), releases := v.releases + |Select(v.rows, o)|)
  }

  function Sold(o: Id, v: View): View {
    v.(rows := SetStatus(v.rows, o, RowStatus.Committed), sales := v.sales + |Select(v.rows, o)|)
  }

  // Its captured payment is refunded.
  predicate Refunds(v: View, v': View) {
    && v.pay.Some? && P.Captured(v.pay.value.es) && v.refunding
    && v'.pay.Some? && v'.pay.value.id == v.pay.value.id && v.pay.value.es <= v'.pay.value.es
       && P.WasRefunded(v'.pay.value.es)
    && v' == v.(pay := v'.pay, msgs := v'.msgs)
  }

  // It gets its payment, of the verdict its total and the breaker call for.
  predicate Pays(v: View, v': View, breakerOpen: bool) {
    && v.pay.None? && v.order.Some? && v.order.value.status != Pending && v.order.value.total > 0
    && v'.pay.Some? && v' == v.(pay := v'.pay, msgs := v'.msgs)
    && (if !breakerOpen && v.order.value.total <= GATEWAY_MAX_CENTS then P.Captured(v'.pay.value.es)
        else P.TurnedDown(v'.pay.value.es))
  }

  // ---------- the handlers' steps ----------

  lemma {:induction false} SameShares(s: Sys, s': Sys)
    requires s' == s.(orderMarks := s'.orderMarks, stockMarks := s'.stockMarks, payMarks := s'.payMarks,
             handlers := s'.handlers)
    ensures forall o: Id :: ViewOf(s', o) == ViewOf(s, o)
  {
  }

  lemma {:induction false} CloseShare(s: Sys, h: Id, x: Handler, saga: SagaState, kind: OrderEventKind,
                                      tx: Result<OrderTables>)
    requires x.copy.id in s.db.orders && s.db.orders[x.copy.id].id == x.copy.id
    requires tx.Ok? ==> tx.value == ClosedTables(s.db, x, saga, kind)
    ensures var o, s' := x.copy.id, CommitAndEnd(s, h, x, tx);
            && OthersSame(s, s', o)
            && (ViewOf(s', o) == ViewOf(s, o) || (tx.Ok? && ViewOf(s', o) == Closed(ViewOf(s, o), x, saga, kind)))
  {
    SameShares(s, EndHandler(s, h));
    if tx.Ok? {
      var s1 := s.(db := tx.value);
      ClosedViews(s, x, saga, kind);
      SameShares(s1, EndHandler(Marked(s1, x), h));
    }
  }

  lemma {:induction false} ConfirmShare(s: Sys, h: Id, x: Handler)
    requires x.kind == Confirming && x.copy.id in s.db.orders && s.db.orders[x.copy.id].id == x.copy.id
    ensures var o, s' := x.copy.id, CommitAndEnd(s, h, x, ConfirmTx(s.db, x.copy));
            var v := ViewOf(s, o);
            && OthersSame(s, s', o)
            && (ViewOf(s', o) == v ||
                ((v.saga == Some(AwaitingPayment) || v.saga == Some(Paid)) && s.db.orders[o].version == x.copy.version
                 && ViewOf(s', o) == Closed(v, x, Completed, OrderConfirmed)))
  {
    ConfirmExact(s.db, x.copy);
    CloseShare(s, h, x, Completed, OrderConfirmed, ConfirmTx(s.db, x.copy));
  }

  lemma {:induction false} FinishShare(s: Sys, h: Id, x: Handler)
    requires x.kind != Confirming && x.copy.id in s.db.orders && s.db.orders[x.copy.id].id == x.copy.id
    ensures var o, s' := x.copy.id, CommitAndEnd(s, h, x, FinishTx(s.db, x.copy, Target(x.kind)));
            && OthersSame(s, s', o)
            && (ViewOf(s', o) == ViewOf(s, o) ||
                (s.db.orders[o].version == x.copy.version
                 && ViewOf(s', o) == Closed(ViewOf(s, o), x, Compensated, OrderCancelled)))
  {
    FinishExact(s.db, x.copy, Target(x.kind));
    CloseShare(s, h, x, Compensated, OrderCancelled, FinishTx(s.db, x.copy, Target(x.kind)));
  }

  lemma {:induction false} CompensateShare(s: Sys, h: Id, x: Handler)
    ensures var o, s' := x.copy.id, CompensateStep(s, h, x);
            && OthersSame(s, s', o)
            && (ViewOf(s', o) == ViewOf(s, o) ||
                (o in s.db.sagas && CanTransition(s.db.sagas[o], Compensating)
                 && ViewOf(s', o) == ViewOf(s, o).(saga := Some(Compensating))))
  {
    CompensateExact(s.db, x.copy.id);
    SagaViews(s, x.copy.id, Compensating);
    SameShares(s, EndHandler(s, h));
    if CompensateTx(s.db, x.copy.id).Ok? {
      SameShares(s.(db := CompensateTx(s.db, x.copy.id).value), CompensateStep(s, h, x));
    }
  }

  lemma {:induction false} FreedShare(s: Sys, o: Id)
    ensures var s' := s.(ledger := ReleaseOp(s.ledger, o));
            OthersSame(s, s', o) && ViewOf(s', o) == Freed(o, ViewOf(s, o))
  {
    ReleaseFrame(s.ledger, o);
    SelectRowsOf(s.ledger.rows, o);
    LedgerViews(s, ReleaseOp(s.ledger, o), o);
  }

  lemma {:induction false} AskedShare(s: Sys, o: Id, call: Call)
    ensures var s' := AskedToRelease(s, o, call);
            && OthersSame(s, s', o)
            && ViewOf(s', o) == (if call == Lost then ViewOf(s, o) else Freed(o, ViewOf(s, o))).(releasing := true)
  {
    FreedShare(s, o);
  }

  lemma {:induction false} ReleaseShare(s: Sys, h: Id, x: Handler, call: Call)
    ensures var o, s' := x.copy.id, ReleaseStep(s, h, x, call);
            && OthersSame(s, s', o)
            && ViewOf(s', o) == (if call == Lost then ViewOf(s, o) else Freed(o, ViewOf(s, o))).(releasing := true)
  {
    AskedShare(s, x.copy.id, call);
    SameShares(AskedToRelease(s, x.copy.id, call), ReleaseStep(s, h, x, call));
  }

  // ---------- refunds, charges and stock ----------

  lemma {:induction false} RefundShare(s: Sys, payment: Id, reason: string)
    requires StreamsLegal(s.streams) && OnePerOrder(s.streams) && payment in s.refunding
             && s.refunding <= s.streams.Keys
    requires Refunded(s, payment, reason).Ok?
    ensures s.streams[payment][0].PaymentInitiated?
    ensures var o, s' := s.streams[payment][0].order, Refunded(s, payment, reason).value;
            OthersSame(s, s', o) && Refunds(ViewOf(s, o), ViewOf(s', o))
  {
    RefundShape(s, payment, reason);
    RefundViews(s, payment, reason);
  }

  // A refund is asked for; the order's own payment is the one named.
  lemma {:induction false} AskedRefundShare(s: Sys, o: Id, payment: Id)
    requires ViewOf(s, o).pay.Some? && ViewOf(s, o).pay.value.id == payment
    ensures var s' := s.(refunding := s.refunding + {payment});
            OthersSame(s, s', o) && ViewOf(s', o) == ViewOf(s, o).(refunding := true)
  {
    var s' := s.(refunding := s.refunding + {payment});
    forall o': Id | o' != o ensures ViewOf(s', o') == ViewOf(s, o') {
      OtherPayment(s.streams, o, o', payment);
    }
  }

  lemma {:induction false} AfterRefundShare(s: Sys, h: Id, x: Handler, call: Call, refunded: Result<Sys>)
    ensures var s' := AfterRefund(s, h, x, call, refunded);
            || (forall o: Id :: ViewOf(s', o) == ViewOf(s, o))
            || (refunded.Ok? && forall o: Id :: ViewOf(s', o) == ViewOf(refunded.value, o))
  {
    SameShares(s, EndHandler(s, h));
    if refunded.Ok? && call != Lost {
      SameShares(refunded.value, AfterRefund(s, h, x, call, refunded));
    }
  }

  lemma {:induction false} RefundStepShare(s: Sys, h: Id, x: Handler, call: Call)
    requires StreamsLegal(s.streams) && OnePerOrder(s.streams) && s.refunding <= s.streams.Keys
    requires ViewOf(s, x.copy.id).pay.Some? && ViewOf(s, x.copy.id).pay.value.id == x.payment
    ensures var o, s' := x.copy.id, RefundStep(s, h, x, call);
            var asked := ViewOf(s, o).(refunding := true);
            OthersSame(s, s', o)
                && (ViewOf(s', o) == ViewOf(s, o) || ViewOf(s', o) == asked || Refunds(asked, ViewOf(s', o)))
  {
    var o, s1 := x.copy.id, s.(refunding := s.refunding + {x.payment});
    if x.kind.Cancelling? {
      ViewPayLegal(s, o);
      AskedRefundShare(s, o, x.payment);
      var refunded := Refunded(s1, x.payment, x.kind.reason);
      if refunded.Ok? {
        RefundShare(s1, x.payment, x.kind.reason);
      }
      AfterRefundShare(s1, h, x, call, refunded);
    }
  }

  lemma {:induction false} ChargeShare(s: Sys, i: nat, event: Id, freshId: Id, breakerOpen: bool, marks: bool,
                                       init: map<Id, nat>)
    requires Inv(s, init) && i < |s.db.outbox|
    ensures var e, s' := s.db.outbox[i], ChargeFor(s, s.db.outbox[i], event, freshId, breakerOpen, marks);
            var v, v' := ViewOf(s, e.order), ViewOf(s', e.order);
            OthersSame(s, s', e.order) && (v' == v || (e.kind == OrderReadyForPayment && Pays(v, v', breakerOpen)))
  {
    var e := s.db.outbox[i];
    var s' := ChargeFor(s, e, event, freshId, breakerOpen, marks);
    if !(e.kind != OrderReadyForPayment || event in s.payMarks || freshId in s.streams || freshId == NIL) {
      ReadyMeansPendingPayment(s, i, init);
      ChargeShape(s, e, freshId, breakerOpen);
      NewChargeShare(s, e, event, freshId, breakerOpen, marks);
    }
  }

  lemma {:induction false} NewChargeShare(s: Sys, e: OrderEvent, event: Id, freshId: Id, breakerOpen: bool, marks: bool)
    requires StreamsLegal(s.streams) && OnePerOrder(s.streams) && freshId !in s.streams && freshId != NIL
             && event !in s.payMarks
    requires e.kind == OrderReadyForPayment && s.refunding <= s.streams.Keys
    requires var v := ViewOf(s, e.order);
             v.order.Some? && v.order.value.status != Pending && e.total == v.order.value.total
    ensures var s' := ChargeFor(s, e, event, freshId, breakerOpen, marks);
            var v, v' := ViewOf(s, e.order), ViewOf(s', e.order);
            OthersSame(s, s', e.order) && (v' == v || Pays(v, v', breakerOpen))
  {
    var s' := ChargeFor(s, e, event, freshId, breakerOpen, marks);
    var c := ProcessPayment(s.streams, e.order, e.customer, e.total, e.currency, freshId, breakerOpen, false);
    if freshId in c.streams {
      ChargeShape(s, e, freshId, breakerOpen);
      ProcessKeeps(s.streams, e.order, e.customer, e.total, e.currency, freshId, breakerOpen, false);
      var es := c.streams[freshId];
      var s1 := s.(streams := s.streams[freshId := es], payOutbox := s.payOutbox
          + MessagesUpTo(P.Replay(P.ZERO, es), es, |es|));
      assert freshId !in s.refunding;
      StreamViews(s, e.order, freshId, es, MessagesUpTo(P.Replay(P.ZERO, es), es, |es|));
      SameShares(s1, s');
    } else {
      SameShares(s, s');
    }
  }

  lemma {:induction false} ReactShare(s: Sys, e: OrderEvent, event: Id)
    ensures var o, s' := e.order, StockReacts(s, e, event);
            var v, v' := ViewOf(s, o), ViewOf(s', o);
            && OthersSame(s, s', o)
            && (v' == v || (e.kind == OrderCancelled && v' == Freed(o, v))
                || (e.kind == OrderConfirmed && v' == Sold(o, v)))
  {
    var o := e.order;
    if event !in s.stockMarks {
      var s1 := s.(ledger := ReactToOrder(s.ledger, e.kind, o));
      SameShares(s1, StockReacts(s, e, event));
      FreedShare(s, o);
      CommitFrame(s.ledger, o);
      SelectRowsOf(s.ledger.rows, o);
      LedgerViews(s, CommitOp(s.ledger, o), o);
    }
  }

  // ---------- the create handler ----------

  lemma {:induction false} ReserveStepLocal(s: Sys, o: Id, ord: Order, call: Call)
    requires CountersOk(s.ledger) && RowsOf(s.ledger.rows, o) == [] && ord.id == o
    ensures OthersSame(s, ReserveStep(s, o, ord, call), o)
  {
    CreateViews(s, o, None);
    if ReserveFor(s, ord).Ok? {
      var s1 := s.(ledger := ReserveFor(s, ord).value);
      ReserveFrame(s.ledger, o, ItemsOf(ord.lines));
      LedgerViews(s, ReserveFor(s, ord).value, o);
      CreateViews(s1, o, Some(Saving(ord)));
      CreateViews(s1, o, None);
    }
  }

  lemma {:induction false} SaveStepLocal(s: Sys, o: Id, ord: Order, call: Call)
    requires ord.id == o
    ensures OthersSame(s, SaveStep(s, o, ord, call), o)
  {
    CreateViews(s, o, Some(Undoing(ord)));
    if SaveOrderTx(s.db, ord).Ok? {
      SaveFrame(s.db, ord);
      DbViews(s, SaveOrderTx(s.db, ord).value, o, Some(if call == Answered then Marking(ord) else Undoing(ord)));
    }
  }

  lemma {:induction false} MarkStepLocal(s: Sys, o: Id, copy: Order)
    requires copy.id == o && (o in s.db.orders ==> s.db.orders[o].id == o)
    ensures OthersSame(s, MarkStep(s, o, copy), o)
  {
    CreateViews(s, o, None);
    MarkPendingExact(s.db, copy);
    if MarkPendingTx(s.db, copy).Ok? {
      var t := MarkPendingTx(s.db, copy).value;
      PutFrame(s.db, t.orders[o], AwaitingPayment, EventOf(OrderReadyForPayment, copy.(status := PendingPayment)));
      DbViews(s, t, o, None);
    }
  }

  lemma {:induction false} CreateLocal(s: Sys, call: CreateCall, o: Id, init: map<Id, nat>)
    requires Inv(s, init) && o in s.creates
    ensures OthersSame(s, CreateStep(s, call, o, s.creates[o]), o)
  {
    At(s, o, init);
    var c := s.creates[o];
    match call
    case CrashCreate => CreateViews(s, o, None);
    case CallReserve(reserve) =>
      if c.Reserving? {
        CountersFine(s, init);
        CreateViews(s, o, Some(Abandoned(c.order)));
        ReserveStepLocal(s, o, c.order, reserve);
      }
    case LateReserve =>
      if c.Abandoned? {
        CountersFine(s, init);
        ReserveStepLocal(s, o, c.order, Unanswered);
      }
    case SaveOrder(save) =>
      if c.Saving? {
        CreateViews(s, o, Some(Undoing(c.order)));
        SaveStepLocal(s, o, c.order, save);
      }
    case CallUndo(undo) =>
      if c.Undoing? {
        AskedShare(s, o, undo);
        CreateViews(AskedToRelease(s, o, undo), o, None);
      }
    case ReadForMark =>
      if c.Marking? {
        CreateViews(s, o, None);
        if o in s.db.orders { CreateViews(s, o, Some(Copied(s.db.orders[o]))); }
      }
    case Mark => if c.Copied? { MarkStepLocal(s, o, c.order); }
  }

  // ---------- any step ----------

  // What a step of a handler may do to the share of its order, beyond nothing.
  predicate HandlerMoves(x: Handler, call: HandlerCall, v: View, v': View) {
    match call
    case Confirm =>
      && x.kind == Confirming && x.at == ToConfirm && (v.saga == Some(AwaitingPayment) || v.saga == Some(Paid))
      && v.order.Some? && v.order.value.version == x.copy.version && v' == Closed(v, x, Completed, OrderConfirmed)
    case Compensate =>
      && x.at == ToCompensate && v.saga.Some? && CanTransition(v.saga.value, Compensating)
      && v' == v.(saga := Some(Compensating))
    case CallRefund(_) =>
      && x.at == ToRefund && x.kind.Cancelling?
      && (v' == v.(refunding := true) || Refunds(v.(refunding := true), v'))
    case CallRelease(call) =>
      && x.at == ToRelease
      && v' == (if call == Lost then v else Freed(x.copy.id, v)).(releasing := true)
    case Finish =>
      && x.at == ToFinish && v.order.Some? && v.order.value.version == x.copy.version
      && v' == Closed(v, x, Compensated, OrderCancelled)
    case CrashHandler => false
  }

  lemma {:induction false} TableCallShare(s: Sys, h: Id, call: HandlerCall, init: map<Id, nat>)
    requires Inv(s, init) && h in s.handlers && (call == Confirm || call == Compensate || call == Finish)
    ensures var x := s.handlers[h];
            var o, s' := x.copy.id, HandlerStep(s, call, h, x);
            && OthersSame(s, s', o)
            && (ViewOf(s', o) == ViewOf(s, o) || HandlerMoves(x, call, ViewOf(s, o), ViewOf(s', o)))
  {
    var x := s.handlers[h];
    assert InFlightOk(s, h);
    At(s, x.copy.id, init);
    match call
    case Confirm => if x.at == ToConfirm { ConfirmShare(s, h, x); }
    case Compensate => if x.at == ToCompensate { CompensateShare(s, h, x); }
    case Finish => if x.at == ToFinish { FinishShare(s, h, x); }
    case _ =>
  }

  lemma {:induction false} HandlerShare(s: Sys, h: Id, call: HandlerCall, init: map<Id, nat>)
    requires Inv(s, init) && h in s.handlers
    ensures var x := s.handlers[h];
            var o, s' := x.copy.id, HandlerStep(s, call, h, x);
            && OthersSame(s, s', o)
            && (ViewOf(s', o) == ViewOf(s, o) || HandlerMoves(x, call, ViewOf(s, o), ViewOf(s', o)))
  {
    var x := s.handlers[h];
    assert InFlightOk(s, h);
    At(s, x.copy.id, init);
    match call
    case CrashHandler => SameShares(s, EndHandler(s, h));
    case CallRefund(refund) => if x.at == ToRefund { RefundStepShare(s, h, x, refund); }
    case CallRelease(release) => if x.at == ToRelease { ReleaseShare(s, h, x, release); }
    case _ => TableCallShare(s, h, call, init);
  }

  // What a step may do to the share of the order it acts for, beyond nothing.
  predicate StepMoves(s: Sys, step: Step, o: Id, v: View, v': View) {
    match step
    case Handling(h, call) => h in s.handlers && HandlerMoves(s.handlers[h], call, v, v')
    case LateRelease(_) => v.releasing && v' == Freed(o, v)
    case LateRefund(_, _) => Refunds(v, v')
    case DeliverToPayment(_, _, _, breakerOpen, _) => Pays(v, v', breakerOpen)
    case DeliverToStock(i, _) =>
      && i < |s.db.outbox| && v.order.Some?
      && (if s.db.outbox[i].kind == OrderConfirmed then v.order.value.status == Confirmed && v' == Sold(o, v)
          else Undone(v.saga) && v.order.value.status != PendingPayment && v' == Freed(o, v))
    case _ => false
  }

  // Every other order's share stays as it is.
  lemma {:induction false} StepIsLocal(s: Sys, step: Step, init: map<Id, nat>)
    requires Inv(s, init)
    ensures OthersSame(s, Next(s, step), Owner(s, step))
  {
    match step
    case BeginCreate(ord) => BeginCreateLocal(s, ord);
    case Creating(o, call) => if o in s.creates { CreateLocal(s, call, o, init); }
    case Handling(h, call) => if h in s.handlers { HandlerShare(s, h, call, init); }
    case _ => DeliveryIsLocal(s, step, init);
  }

  lemma {:induction false} DeliveryIsLocal(s: Sys, step: Step, init: map<Id, nat>)
    requires Inv(s, init) && !step.BeginCreate? && !step.Creating? && !step.Handling?
    ensures OthersSame(s, Next(s, step), Owner(s, step))
  {
    match step
    case DeliverToOrders(h, i, event) => if i < |s.payOutbox| { DeliverShare(s, h, s.payOutbox[i], event); }
    case StartCancel(h, payment, reason) => SameShares(s, BeginCancel(s, h, payment, reason));
    case LateRelease(o) => if o in s.releasing { FreedShare(s, o); }
    case LateRefund(payment, reason) =>
      if payment in s.refunding && Refunded(s, payment, reason).Ok? { RefundShare(s, payment, reason); }
    case DeliverToPayment(i, event, freshId, breakerOpen, marks) =>
      if i < |s.db.outbox| { ChargeShare(s, i, event, freshId, breakerOpen, marks, init); }
    case DeliverToStock(i, event) => if i < |s.db.outbox| { ReactShare(s, s.db.outbox[i], event); }
    case _ =>
  }

  lemma {:induction false} BeginCreateLocal(s: Sys, ord: Order)
    ensures OthersSame(s, Next(s, BeginCreate(ord)), ord.id)
  {
    if IsNew(ord) && ord.id !in s.used { BeginCreateViews(s, ord); }
  }

  lemma {:induction false} DeliverShare(s: Sys, h: Id, m: PayMessage, event: Id)
    ensures forall o: Id :: ViewOf(DeliverMessage(s, h, m, event), o) == ViewOf(s, o)
  {
    SameShares(s, DeliverMessage(s, h, m, event));
  }

  // The order it acts for, once past pending, changes in one of the ways listed.
  lemma {:induction false} StepShare(s: Sys, step: Step, o: Id, init: map<Id, nat>)
    requires Inv(s, init) && o in s.db.orders && s.db.orders[o].status != Pending
    ensures var v, v' := ViewOf(s, o), ViewOf(Next(s, step), o);
            v' == v || (o == Owner(s, step) && StepMoves(s, step, o, v, v'))
  {
    StepIsLocal(s, step, init);
    if step.DeliverToOrders? {
      if step.i < |s.payOutbox| { DeliverShare(s, step.h, s.payOutbox[step.i], step.event); }
    } else if step.StartCancel? {
      SameShares(s, BeginCancel(s, step.h, step.payment, step.reason));
    } else if o == Owner(s, step) {
      At(s, o, init);
      match step
      case Handling(h, call) => if h in s.handlers { HandlerShare(s, h, call, init); }
      case LateRelease(_) => if o in s.releasing { FreedShare(s, o); }
      case LateRefund(payment, reason) =>
        if payment in s.refunding && Refunded(s, payment, reason).Ok? { RefundShare(s, payment, reason); }
      case DeliverToPayment(i, event, freshId, breakerOpen, marks) =>
        if i < |s.db.outbox| { ChargeShare(s, i, event, freshId, breakerOpen, marks, init); }
      case DeliverToStock(i, event) => StockStepShare(s, i, event, init);
      case _ =>
    }
  }

  lemma {:induction false} StockMoves(o: Id, v: View, v': View, e: OrderEvent, event: Id, s: Sys, i: nat)
    requires ViewOk(o, v) && e in v.events && i < |s.db.outbox| && s.db.outbox[i] == e
    requires v' == v || (e.kind == OrderCancelled && v' == Freed(o, v))
             || (e.kind == OrderConfirmed && v' == Sold(o, v))
    ensures v' == v || StepMoves(s, DeliverToStock(i, event), o, v, v')
  {
    ViewAnnounces(o, v, e);
  }

  lemma {:induction false} StockStepShare(s: Sys, i: nat, event: Id, init: map<Id, nat>)
    requires Inv(s, init) && i < |s.db.outbox|
    ensures var o, s' := s.db.outbox[i].order, StockReacts(s, s.db.outbox[i], event);
            ViewOf(s', o) == ViewOf(s, o) || StepMoves(s, DeliverToStock(i, event), o, ViewOf(s, o), ViewOf(s', o))
  {
    var e := s.db.outbox[i];
    ReactShare(s, e, event);
    EventsForMember(s.db.outbox, i);
    At(s, e.order, init);
    StockMoves(e.order, ViewOf(s, e.order), ViewOf(StockReacts(s, e, event), e.order), e, event, s, i);
  }

  lemma {:induction false} RowsAfter(s: Sys, step: Step, o: Id, v: View, v': View)
    requires StepMoves(s, step, o, v, v') && (step.Handling? ==> Owner(s, step) == o)
    ensures v'.rows == v.rows || v'.rows == SetStatus(v.rows, o, Released)
            || v'.rows == SetStatus(v.rows, o, RowStatus.Committed)
  {
  }

  // Rows given up stay given up.
  lemma {:induction false} RowsMove(s: Sys, step: Step, o: Id, v: View, v': View)
    requires StepMoves(s, step, o, v, v') && (step.Handling? ==> Owner(s, step) == o)
    ensures |Select(v.rows, o)| == 0 ==> |Select(v'.rows, o)| == 0
  {
    RowsAfter(s, step, o, v, v');
    SelectAfterSetStatus(v.rows, o, Released);
    SelectAfterSetStatus(v.rows, o, RowStatus.Committed);
  }

  // ---------- the handlers in flight ----------

  // A handler goes on from one stage to the next; past its refund only if that found the payment captured.
  predicate GoesOn(s: Sys, x: Handler, call: HandlerCall, y: Handler) {
    && y == x.(at := y.at)
    && match call
       case Compensate => x.at == ToCompensate && y.at == if x.kind.Cancelling? then ToRefund else ToRelease
       case CallRefund(_) =>
         && x.at == ToRefund && y.at == ToRelease && x.kind.Cancelling?
         && x.payment in s.streams && P.Captured(s.streams[x.payment])
       case CallRelease(_) => x.at == ToRelease && y.at == ToFinish
       case _ => false
  }

  lemma {:induction false} OtherHandlersStay(s: Sys, h: Id, call: HandlerCall, g: Id)
    requires h in s.handlers && g != h && g in HandlerStep(s, call, h, s.handlers[h]).handlers
    ensures g in s.handlers && HandlerStep(s, call, h, s.handlers[h]).handlers[g] == s.handlers[g]
  {
  }

  lemma {:induction false} HandlerGoesOn(s: Sys, h: Id, call: HandlerCall)
    requires StreamsLegal(s.streams) && OnePerOrder(s.streams) && h in s.handlers
    ensures var s' := HandlerStep(s, call, h, s.handlers[h]);
            h in s'.handlers ==> s'.handlers[h] == s.handlers[h] || GoesOn(s, s.handlers[h], call, s'.handlers[h])
  {
    var x := s.handlers[h];
    var s1 := s.(refunding := s.refunding + {x.payment});
    if call.CallRefund? && x.at == ToRefund && x.kind.Cancelling? && Refunded(s1, x.payment, x.kind.reason).Ok? {
      RefundShape(s1, x.payment, x.kind.reason);
    }
  }

  // A handler just started, by a payment event or by FailAfterPayment.
  predicate Starts(s: Sys, step: Step, h: Id, y: Handler) {
    match step
    case DeliverToOrders(g, i, event) =>
      && g == h && i < |s.payOutbox| && s.payOutbox[i].order in s.db.orders
      && y.copy == s.db.orders[s.payOutbox[i].order] && y.event == Some(event) && y.payment == s.payOutbox[i].payment
      && ((s.payOutbox[i].kind == EvProcessed && y.kind == Confirming && y.at == ToConfirm)
          || (s.payOutbox[i].kind == EvFailed && y.kind == Failing && y.at == ToCompensate))
    case StartCancel(g, payment, reason) =>
      && g == h && payment in s.streams && y.payment == payment && y.kind == Cancelling(reason) && y.at == ToCompensate
      && y.copy.id in s.db.orders && BelongsTo(s.streams[payment], y.copy.id)
    case _ => false
  }

  // A handler in flight was there before, went one stage on, or has just started.
  lemma {:induction false} HandlersMove(s: Sys, step: Step, h: Id, init: map<Id, nat>)
    requires Inv(s, init) && h in Next(s, step).handlers
    ensures var y := Next(s, step).handlers[h];
            || (h in s.handlers && y == s.handlers[h])
            || (h in s.handlers && step.Handling? && step.h == h && GoesOn(s, s.handlers[h], step.call, y))
            || (h !in s.handlers && Starts(s, step, h, y))
  {
    if step.Handling? {
      if step.h == h && h in s.handlers {
        HandlerGoesOn(s, h, step.call);
      } else if step.h in s.handlers {
        OtherHandlersStay(s, step.h, step.call, h);
      }
    } else if step.StartCancel? {
      CancelStarts(s, step.h, step.payment, step.reason, init);
    } else if step.DeliverToOrders? {
      DeliverStarts(s, step.h, step.i, step.event);
    } else {
      OtherStepsKeepHandlers(s, step);
    }
  }

  lemma {:induction false} DeliverStarts(s: Sys, g: Id, i: nat, event: Id)
    ensures var s' := Next(s, DeliverToOrders(g, i, event));
            s'.handlers == s.handlers ||
            (g !in s.handlers && g in s'.handlers && s'.handlers == s.handlers[g := s'.handlers[g]]
             && Starts(s, DeliverToOrders(g, i, event), g, s'.handlers[g]))
  {
  }

  lemma {:induction false} CancelStarts(s: Sys, g: Id, payment: Id, reason: string, init: map<Id, nat>)
    requires Inv(s, init)
    ensures BeginCancel(s, g, payment, reason) == s ||
            (g !in s.handlers && g in BeginCancel(s, g, payment, reason).handlers
             && BeginCancel(s, g, payment, reason).handlers ==
                s.handlers[g := BeginCancel(s, g, payment, reason).handlers[g]]
             && Starts(s, StartCancel(g, payment, reason), g, BeginCancel(s, g, payment, reason).handlers[g]))
  {
    if BeginCancel(s, g, payment, reason) != s {
      At(s, s.streams[payment][0].order, init);
    }
  }

  lemma {:induction false} OtherStepsKeepHandlers(s: Sys, step: Step)
    requires !step.Handling? && !step.StartCancel? && !step.DeliverToOrders?
    ensures Next(s, step).handlers == s.handlers
  {
  }
}
