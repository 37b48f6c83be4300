/** Orders, payments and stock as one transition system over the tables of their services.

    Every committed transaction and every remote call is one step; a handler in flight is a program
    counter with the copy of the order it once read. Any handler may crash between its steps, a
    remote call may be lost before or after its effect and may take effect late, and the bus
    delivers any outbox row at any time, in any order, any number of times, under any event id. */
module SagaSystem {
  import opened Common
  import opened Orders
  import opened StockLedger
  import opened EventStore
  import opened PaymentService
  import opened Inventory
  import P = Payment

  // ---------- state ----------

  // Where the create handler of an order is.
  datatype Create =
    | Reserving(order: Order)   // about to call Reserve
    | Abandoned(order: Order)   // gave up waiting; the request may still be executed
    | Saving(order: Order)      // stock reserved, order not saved
    | Undoing(order: Order)     // Save reported an error; about to call Release
    | Marking(order: Order)     // saved; about to read it again
    | Copied(order: Order)      // about to move it to pending_payment

  datatype Kind = Confirming | Failing | Cancelling(reason: string)
  datatype Stage = ToConfirm | ToCompensate | ToRefund | ToRelease | ToFinish

  // ConfirmPayment, FailPayment or FailAfterPayment in flight.
  datatype Handler = Handler(kind: Kind, event: Option<Id>, payment: Id, at: Stage, copy: Order)

  datatype Sys = Sys(
    db: OrderTables, orderMarks: set<Id>,
    ledger: Ledger, stockMarks: set<Id>,
    streams: Streams, payOutbox: seq<PayMessage>, payMarks: set<Id>,
    creates: map<Id, Create>, handlers: map<Id, Handler>,
    used: set<Id>, releasing: set<Id>, refunding: set<Id>)

  datatype CreateCall =
    | CallReserve(reserve: Call)
    | LateReserve
    | SaveOrder(save: Call)
    | CallUndo(undo: Call)
    | ReadForMark
    | Mark
    | CrashCreate

  datatype HandlerCall =
    | Confirm
    | Compensate
    | CallRefund(refund: Call)
    | CallRelease(release: Call)
    | Finish
    | CrashHandler

  datatype Step =
    | BeginCreate(order: Order)
    | Creating(o: Id, create: CreateCall)
    | DeliverToOrders(h: Id, i: nat, event: Id)
    | StartCancel(h: Id, payment: Id, reason: string)
    | Handling(h: Id, call: HandlerCall)
    | LateRelease(o: Id)
    | LateRefund(payment: Id, reason: string)
    | DeliverToPayment(i: nat, event: Id, freshId: Id, breakerOpen: bool, marks: bool)
    | DeliverToStock(i: nat, event: Id)

  // ---------- the create handler ----------

  function ItemsOf(lines: seq<Line>): (r: seq<Item>)
    ensures |r| == |lines|
  {
    seq(|lines|, i requires 0 <= i < |lines| => Item(lines[i].product, lines[i].quantity))
  }

  // What NewOrder returns.
  predicate IsNew(ord: Order) {
    && ord.id != NIL && ord.customer != NIL && ord.status == Pending && ord.version == 1
    && |ord.lines| > 0 && |ord.currency| > 0 && ValidLines(ord.lines) && Billed(ord)
  }

  function WithCreate(s: Sys, o: Id, c: Create): Sys {
    s.(creates := s.creates[o := c])
  }

  function EndCreate(s: Sys, o: Id): Sys {
    s.(creates := s.creates - {o})
  }

  function ReserveFor(s: Sys, ord: Order): Result<Ledger> {
    ReserveOp(s.ledger, ord.id, ItemsOf(ord.lines))
  }

  // A release was sent: executed or not, it may still be executed later.
  function AskedToRelease(s: Sys, o: Id, call: Call): Sys {
    s.(ledger := ReleasedBy(s.ledger, o, call), releasing := s.releasing + {o})
  }

  function ReserveStep(s: Sys, o: Id, ord: Order, call: Call): Sys {
    match ReserveFor(s, ord)
    case Err(_) => EndCreate(s, o)
    case Ok(l') =>
      var s' := s.(ledger := l');
      if call == Answered then WithCreate(s', o, Saving(ord)) else EndCreate(s', o)
  }

  function SaveStep(s: Sys, o: Id, ord: Order, call: Call): Sys {
    match SaveOrderTx(s.db, ord)
    case Err(_) => WithCreate(s, o, Undoing(ord))
    case Ok(db') =>
      WithCreate(s.(db := db'), o, if call == Answered then Marking(ord) else Undoing(ord))
  }

  function MarkStep(s: Sys, o: Id, copy: Order): Sys {
    match MarkPendingTx(s.db, copy)
    case Err(_) => EndCreate(s, o)
    case Ok(db') => EndCreate(s.(db := db'), o)
  }

  function CreateStep(s: Sys, call: CreateCall, o: Id, c: Create): Sys {
    match call
    case CrashCreate => EndCreate(s, o)
    case CallReserve(reserve) =>
      if !c.Reserving? then s
      else if reserve == Lost then WithCreate(s, o, Abandoned(c.order))
      else ReserveStep(s, o, c.order, reserve)
    case LateReserve => if c.Abandoned? then ReserveStep(s, o, c.order, Unanswered) else s
    case SaveOrder(save) =>
      if !c.Saving? then s
      else if save == Lost then WithCreate(s, o, Undoing(c.order))
      else SaveStep(s, o, c.order, save)
    case CallUndo(undo) => if c.Undoing? then EndCreate(AskedToRelease(s, o, undo), o) else s
    case ReadForMark =>
      if !c.Marking? then s
      else if o in s.db.orders then WithCreate(s, o, Copied(s.db.orders[o]))
      else EndCreate(s, o)
    case Mark => if c.Copied? then MarkStep(s, o, c.order) else s
  }

  // ---------- the payment-event handlers ----------

  function WithHandler(s: Sys, h: Id, x: Handler): Sys {
    s.(handlers := s.handlers[h := x])
  }

  function EndHandler(s: Sys, h: Id): Sys {
    s.(handlers := s.handlers - {h})
  }

  // The processed mark commits with the effect; a marked event's transaction never starts.
  predicate MarkFree(s: Sys, x: Handler) {
    x.event.Some? ==> x.event.value !in s.orderMarks
  }

  function Marked(s: Sys, x: Handler): Sys {
    if x.event.Some? then s.(orderMarks := s.orderMarks + {x.event.value}) else s
  }

  function Target(k: Kind): Status {
    match k case Confirming => Confirmed case Failing => Status.PaymentFailed case Cancelling(_) => Cancelled
  }

  // The refund as the payment service executes it, with its outbox row.
  function Refunded(s: Sys, payment: Id, reason: string): Result<Sys> {
    var (streams', r) := RefundPayment(s.streams, payment, reason);
    if r.Failed? then Err(r.error)
    else
      var st := P.Replay(P.ZERO, streams'[payment]);
      Ok(s.(streams := streams', payOutbox := s.payOutbox
          + [MessageOf(st, streams'[payment][|streams'[payment]| - 1])]))
  }

  // A handler's closing transaction and the processed mark of its event commit together.
  function CommitAndEnd(s: Sys, h: Id, x: Handler, tx: Result<OrderTables>): Sys {
    if tx.Ok? && MarkFree(s, x) then EndHandler(Marked(s.(db := tx.value), x), h) else EndHandler(s, h)
  }

  function CompensateStep(s: Sys, h: Id, x: Handler): Sys {
    match CompensateTx(s.db, x.copy.id)
    case Err(_) => EndHandler(s, h)
    case Ok(db') => WithHandler(s.(db := db'), h, x.(at := if x.kind.Cancelling? then ToRefund else ToRelease))
  }

  // Where a handler goes once its refund was asked for, given what executing it would do.
  function AfterRefund(s: Sys, h: Id, x: Handler, call: Call, refunded: Result<Sys>): Sys {
    if call == Lost || refunded.Err? then EndHandler(s, h)
    else if call == Answered then WithHandler(refunded.value, h, x.(at := ToRelease))
    else EndHandler(refunded.value, h)
  }

  function RefundStep(s: Sys, h: Id, x: Handler, call: Call): Sys {
    if !x.kind.Cancelling? then s
    else
      var s1 := s.(refunding := s.refunding + {x.payment});
      AfterRefund(s1, h, x, call, Refunded(s1, x.payment, x.kind.reason))
  }

  function ReleaseStep(s: Sys, h: Id, x: Handler, call: Call): Sys {
    var s1 := AskedToRelease(s, x.copy.id, call);
    if call == Answered then WithHandler(s1, h, x.(at := ToFinish)) else EndHandler(s1, h)
  }

  function HandlerStep(s: Sys, call: HandlerCall, h: Id, x: Handler): Sys {
    match call
    case CrashHandler => EndHandler(s, h)
    case Confirm => if x.at == ToConfirm then CommitAndEnd(s, h, x, ConfirmTx(s.db, x.copy)) else s
    case Compensate => if x.at == ToCompensate then CompensateStep(s, h, x) else s
    case CallRefund(refund) => if x.at == ToRefund then RefundStep(s, h, x, refund) else s
    case CallRelease(release) => if x.at == ToRelease then ReleaseStep(s, h, x, release) else s
    case Finish => if x.at == ToFinish then CommitAndEnd(s, h, x, FinishTx(s.db, x.copy, Target(x.kind))) else s
  }

  // The payments consumer reads the order, ignores a terminal one, and otherwise starts a handler.
  function DeliverMessage(s: Sys, h: Id, m: PayMessage, event: Id): Sys {
    if h in s.handlers || (m.kind != EvProcessed && m.kind != EvFailed) || event in s.orderMarks
      || m.order !in s.db.orders then s
    else
      var copy := s.db.orders[m.order];
      if IsTerminal(copy.status) then s.(orderMarks := s.orderMarks + {event})
      else if m.kind == EvProcessed then WithHandler(s, h, Handler(Confirming, Some(event), m.payment, ToConfirm, copy))
      else WithHandler(s, h, Handler(Failing, Some(event), m.payment, ToCompensate, copy))
  }

  // FailAfterPayment, called for the payment's own order.
  function BeginCancel(s: Sys, h: Id, payment: Id, reason: string): Sys {
    if h in s.handlers || payment !in s.streams || |s.streams[payment]| == 0
      || !s.streams[payment][0].PaymentInitiated? then s
    else
      var o := s.streams[payment][0].order;
      if o !in s.db.orders || IsTerminal(s.db.orders[o].status) then s
      else WithHandler(s, h, Handler(Cancelling(reason), None, payment, ToCompensate, s.db.orders[o]))
  }

  // ---------- the payment and inventory consumers ----------

  function ChargeFor(s: Sys, e: OrderEvent, event: Id, freshId: Id, breakerOpen: bool, marks: bool): Sys {
    if e.kind != OrderReadyForPayment || event in s.payMarks || freshId in s.streams || freshId == NIL then s
    else
      var c := ProcessPayment(s.streams, e.order, e.customer, e.total, e.currency, freshId, breakerOpen, false);
      var s1 := if freshId !in c.streams then s
                else
                  var es := c.streams[freshId];
                  s.(streams := c.streams, payOutbox := s.payOutbox + MessagesUpTo(P.Replay(P.ZERO, es), es, |es|));
      if marks && (c.outcome == Done || c.outcome == Failed(ChargeDeclined))
        then s1.(payMarks := s1.payMarks + {event}) else s1
  }

  function StockReacts(s: Sys, e: OrderEvent, event: Id): Sys {
    if event in s.stockMarks then s
    else s.(stockMarks := s.stockMarks + {event}, ledger := ReactToOrder(s.ledger, e.kind, e.order))
  }

  // ---------- one step, and runs ----------

  function Next(s: Sys, step: Step): Sys {
    match step
    case BeginCreate(ord) =>
      if IsNew(ord) && ord.id !in s.used then WithCreate(s.(used := s.used + {ord.id}), ord.id, Reserving(ord)) else s
    case DeliverToOrders(h, i, event) => if i < |s.payOutbox| then DeliverMessage(s, h, s.payOutbox[i], event) else s
    case StartCancel(h, payment, reason) => BeginCancel(s, h, payment, reason)
    case LateRelease(o) => if o in s.releasing then s.(ledger := ReleaseOp(s.ledger, o)) else s
    case LateRefund(payment, reason) =>
      if payment in s.refunding then (match Refunded(s, payment, reason) case Err(_) => s case Ok(s') => s') else s
    case DeliverToPayment(i, event, freshId, breakerOpen, marks) =>
      if i < |s.db.outbox| then ChargeFor(s, s.db.outbox[i], event, freshId, breakerOpen, marks) else s
    case DeliverToStock(i, event) => if i < |s.db.outbox| then StockReacts(s, s.db.outbox[i], event) else s
    case Creating(o, call) => if o in s.creates then CreateStep(s, call, o, s.creates[o]) else s
    case Handling(h, call) => if h in s.handlers then HandlerStep(s, call, h, s.handlers[h]) else s
  }

  function Run(s: Sys, steps: seq<Step>): Sys {
    if |steps| == 0 then s else Next(Run(s, steps[..|steps| - 1]), steps[|steps| - 1])
  }

  ghost predicate Initial(s: Sys, init: map<Id, nat>) {
    && s.db == OrderTables(map[], map[], []) && s.orderMarks == {}
    && EmptyLedger(s.ledger, init) && s.stockMarks == {}
    && s.streams == map[] && s.payOutbox == [] && s.payMarks == {}
    && s.creates == map[] && s.handlers == map[] && s.used == {} && s.releasing == {} && s.refunding == {}
  }
}
