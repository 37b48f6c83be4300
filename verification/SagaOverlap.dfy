/** Overlapping deliveries: redelivery step by step, with handlers of the same row interleaved, crashed
    and left over from before. */
module SagaOverlap {
  import opened Common
  import opened Orders
  import opened StockLedger
  import opened StockFrames
  import opened EventStore
  import opened PaymentService
  import opened SagaSystem
  import opened SagaInvariant
  import opened SagaFrames
  import opened SagaSteps
  import opened SagaShares
  import opened SagaTheorems
  import opened SagaDelivery

  // A handler works for a payment event of an order.
  predicate WorksFor(x: Handler, m: PayMessage) {
    x.copy.id == m.order &&
    ((m.kind == EvProcessed && x.kind == Confirming) || (m.kind == EvFailed && x.kind == Failing))
  }

  // A step of some delivery of this row: a consumer takes it, under whatever event id, a handler it
  // started goes on, or a release it asked for is executed late.
  predicate ForRow(s: Sys, d: Delivery, step: Step)
    requires RowExists(s, d)
  {
    match step
    case DeliverToOrders(_, i, _) => d.ToOrders? && i == d.i
    case Handling(h, _) => d.ToOrders? && (h in s.handlers ==> WorksFor(s.handlers[h], s.payOutbox[d.i]))
    case LateRelease(o) => d.ToOrders? && o == OrderOf(s, d) && s.payOutbox[d.i].kind == EvFailed
    case DeliverToPayment(i, _, _, _, _) => d.ToPayment? && i == d.i
    case DeliverToStock(i, _) => d.ToStock? && i == d.i
    case _ => false
  }

  // ---------- a settled row ----------

  lemma {:induction false} ConfirmIdle(s: Sys, h: Id, call: HandlerCall, init: map<Id, nat>)
    requires Inv(s, init) && h in s.handlers && s.handlers[h].kind == Confirming
    requires var o := s.handlers[h].copy.id;
             o in s.db.orders && (IsTerminal(s.db.orders[o].status) || Undone(Lookup(s.db.sagas, o)))
    ensures CoreOf(HandlerStep(s, call, h, s.handlers[h])) == CoreOf(s)
  {
    var x := s.handlers[h];
    assert InFlightOk(s, h);
    At(s, x.copy.id, init);
    ConfirmExact(s.db, x.copy);
    assert ConfirmTx(s.db, x.copy).Err?;
  }

  // The stock and saga of an order whose declined payment closed it.
  lemma {:induction false} DeclinedClosed(s: Sys, o: Id, init: map<Id, nat>)
    requires Inv(s, init) && o in s.db.orders && IsTerminal(s.db.orders[o].status)
    requires ViewOf(s, o).pay.Some? && Charged2(ViewOf(s, o).pay.value.es)
             && ViewOf(s, o).pay.value.es[1].PaymentDeclined?
    ensures s.db.orders[o].version == 3 && Lookup(s.db.sagas, o) == Some(Compensated)
    ensures ReleaseOp(s.ledger, o) == s.ledger
  {
    At(s, o, init);
    SelectHeld(s.ledger, o, HeldItems(s.db.orders[o]), Released);
    NothingToGiveUp(s.ledger, o);
  }

  lemma {:induction false} FailIdle(s: Sys, h: Id, call: HandlerCall, init: map<Id, nat>)
    requires Inv(s, init) && h in s.handlers && s.handlers[h].kind == Failing
    requires s.handlers[h].copy.id in s.db.orders && IsTerminal(s.db.orders[s.handlers[h].copy.id].status)
    ensures CoreOf(HandlerStep(s, call, h, s.handlers[h])) == CoreOf(s)
  {
    var x := s.handlers[h];
    assert InFlightOk(s, h);
    DeclinedClosed(s, x.copy.id, init);
    At(s, x.copy.id, init);
    CompensateExact(s.db, x.copy.id);
    FinishExact(s.db, x.copy, Status.PaymentFailed);
    assert CompensateTx(s.db, x.copy.id).Err? && FinishTx(s.db, x.copy, Status.PaymentFailed).Err?;
  }

  lemma {:induction false} ChargeIdle(s: Sys, e: OrderEvent, event: Id, freshId: Id, breakerOpen: bool, marks: bool)
    requires e.kind == OrderReadyForPayment ==> HasPayment(s.streams, e.order) || e.total <= 0
    ensures CoreOf(ChargeFor(s, e, event, freshId, breakerOpen, marks)) == CoreOf(s)
  {
  }

  lemma {:induction false} ReactIdle(s: Sys, e: OrderEvent, event: Id)
    requires e.kind == OrderConfirmed || e.kind == OrderCancelled ==> |Select(s.ledger.rows, e.order)| == 0
    ensures CoreOf(StockReacts(s, e, event)) == CoreOf(s)
  {
    if e.kind == OrderConfirmed || e.kind == OrderCancelled {
      NothingToGiveUp(s.ledger, e.order);
    }
  }

  // Once a row is settled no step of any delivery of it changes anything, not even one of a handler
  // started before.
  lemma {:induction false} SettledStep(s: Sys, d: Delivery, step: Step, init: map<Id, nat>)
    requires Inv(s, init) && RowExists(s, d) && Settled(s, d) && ForRow(s, d, step)
    ensures CoreOf(Next(s, step)) == CoreOf(s)
  {
    match step
    case DeliverToOrders(_, _, _) =>
    case Handling(h, call) =>
      if h in s.handlers {
        if s.handlers[h].kind == Confirming {
          ConfirmIdle(s, h, call, init);
        } else {
          FailIdle(s, h, call, init);
        }
      }
    case LateRelease(o) =>
      StartsWell(s, d.i, 0, init);
      At(s, o, init);
      MessagesForMember(s.payOutbox, d.i);
      ViewTells(o, ViewOf(s, o), s.payOutbox[d.i]);
      DeclinedClosed(s, o, init);
    case DeliverToPayment(i, event, freshId, breakerOpen, marks) =>
      ChargeIdle(s, s.db.outbox[i], event, freshId, breakerOpen, marks);
    case DeliverToStock(i, event) => ReactIdle(s, s.db.outbox[i], event);
  }

  // After one clean delivery of a row, whatever happens in between, no step of any other delivery of it
  // changes an order, saga, reservation, counter, movement, payment or outbox row.
  lemma {:induction false} OverlapChangesNothing(s0: Sys, steps: seq<Step>, init: map<Id, nat>, d: Delivery,
                                                 more: seq<Step>, step: Step)
    requires Initial(s0, init) && Clean(Run(s0, steps), d)
    requires RowExists(Run(AfterDelivery(Run(s0, steps), d), more), d)
    requires ForRow(Run(AfterDelivery(Run(s0, steps), d), more), d, step)
    ensures var t := Run(AfterDelivery(Run(s0, steps), d), more);
            CoreOf(Next(t, step)) == CoreOf(t)
  {
    var s := Run(s0, steps);
    var u := AfterDelivery(s, d);
    Reachable(s0, steps, init);
    DeliveryKeeps(s, d, init);
    CleanSettles(s, d, init);
    RunKeeps(u, more, init);
    SettledForGood(u, more, d, init);
    SettledStep(Run(u, more), d, step, init);
  }

  // ---------- deliveries that overlap from the start ----------

  // A step that does not take up this payment event, cancel the order or sell its stock: every step for
  // another order, and the rest for this one.
  predicate Foreign(s: Sys, d: Delivery, step: Step)
    requires RowExists(s, d)
  {
    var o := OrderOf(s, d);
    match step
    case DeliverToOrders(_, i, _) => i < |s.payOutbox| ==> s.payOutbox[i].order != o
    case StartCancel(_, payment, _) => payment !in s.streams || !BelongsTo(s.streams[payment], o)
    case DeliverToPayment(_, _, _, _, _) => true
    case DeliverToStock(i, _) => i < |s.db.outbox| && s.db.outbox[i].order == o
      ==> s.db.outbox[i].kind != OrderConfirmed
    case _ => Owner(s, step) != o
  }

  // Steps of deliveries of the row, with any foreign steps in between.
  predicate Interleaved(s: Sys, d: Delivery, steps: seq<Step>) {
    |steps| > 0 ==>
      var before, step := Run(s, steps[..|steps| - 1]), steps[|steps| - 1];
      && Interleaved(s, d, steps[..|steps| - 1])
      && RowExists(before, d) && (ForRow(before, d, step) || Foreign(before, d, step))
  }

  // An order's share, apart from whether a release or a refund of it may still be executed.
  function Share(v: View): View {
    v.(releasing := false, refunding := false)
  }

  // The share while deliveries of a payment event, seen first in v, are at work and none has closed it.
  predicate Underway(o: Id, v: View, w: View, kind: PayEventKind) {
    if kind == EvProcessed then Share(w) == Share(v)
    else
      && (w.saga == v.saga || w.saga == Some(Compensating))
      && (Share(w) == Share(v).(saga := w.saga) || Share(w) == Share(Freed(o, v)).(saga := w.saga))
  }

  // What one delivery leaves of it.
  function OneDelivery(o: Id, v: View, x: Handler): View
    requires v.order.Some?
  {
    if x.kind == Confirming then Closed(v, x, Completed, OrderConfirmed)
    else Closed(Freed(o, v), x, Compensated, OrderCancelled)
  }

  predicate Open(v: View, x: Handler) {
    && v.order.Some? && v.order.value.status == PendingPayment && x.copy == v.order.value
    && (x.kind == Confirming || x.kind == Failing) && (x.kind == Confirming ==> !Undone(v.saga)) && v.pay.Some?
  }

  function KindFor(x: Handler): PayEventKind {
    if x.kind == Confirming then EvProcessed else EvFailed
  }

  // ---------- on the share ----------

  lemma {:induction false} FreedTwice(o: Id, v: View)
    ensures Freed(o, Freed(o, v)) == Freed(o, v)
  {
    SelectAfterSetStatus(v.rows, o, Released);
    SelectNone(SetStatus(v.rows, o, Released), o, Released);
  }

  // Rows all given back stay as they are.
  lemma {:induction false} FreedAll(o: Id, v: View)
    requires v.order.Some? && v.order.value.id == o && Holds(v, v.order.value, Released)
    ensures Freed(o, v) == v
  {
    SelectNewRows(o, HeldItems(v.order.value), Released);
    SelectNone(v.rows, o, Released);
  }

  lemma {:induction false} ConfirmUnderway(o: Id, v: View, w: View, w': View, x: Handler, y: Handler, call: HandlerCall)
    requires ViewOk(o, w) && Open(v, x) && x.kind == Confirming && Share(w) == Share(v)
    requires HandlerOk(w, y) && y.kind == Confirming && HandlerMoves(y, call, w, w')
    ensures Share(w') == Share(OneDelivery(o, v, x))
  {
  }

  lemma {:induction false} SameFreed(o: Id, v: View, w: View)
    requires Share(w) == Share(v).(saga := w.saga)
    ensures Share(Freed(o, w)) == Share(Freed(o, v)).(saga := w.saga)
  {
  }

  lemma {:induction false} SameClose(v: View, w: View, x: Handler, y: Handler)
    requires v.order.Some? && Share(w) == Share(v).(saga := w.saga) && y.copy == x.copy && y.kind == x.kind
    ensures Share(Closed(w, y, Compensated, OrderCancelled)) == Share(Closed(v, x, Compensated, OrderCancelled))
  {
  }

  // A release moves the share on, or leaves it where a release before left it.
  lemma {:induction false} FreedUnderway(o: Id, v: View, w: View)
    requires Underway(o, v, w, EvFailed)
    ensures Share(Freed(o, w)) == Share(Freed(o, v)).(saga := w.saga)
  {
    FreedTwice(o, v);
    if Share(w) == Share(v).(saga := w.saga) {
      SameFreed(o, v, w);
    } else {
      SameFreed(o, Freed(o, v), w);
    }
  }

  lemma {:induction false} FinishUnderway(o: Id, v: View, w: View, w': View, x: Handler, y: Handler)
    requires ViewOk(o, w) && Open(v, x) && x.kind == Failing && x.copy.id == o && Underway(o, v, w, EvFailed)
    requires HandlerOk(w, y) && y.kind == Failing && HandlerMoves(y, Finish, w, w')
    ensures Share(w') == Share(OneDelivery(o, v, x))
  {
    FreedAll(o, w);
    FreedUnderway(o, v, w);
    SameClose(Freed(o, v), w, x, y);
  }

  lemma {:induction false} ReleaseUnderway(o: Id, v: View, w: View, w': View, y: Handler, call: Call)
    requires ViewOk(o, w) && Underway(o, v, w, EvFailed)
    requires y.copy.id == o && HandlerMoves(y, CallRelease(call), w, w')
    ensures Underway(o, v, w', EvFailed)
  {
    FreedUnderway(o, v, w);
    assert Share(w') == if call == Lost then Share(w) else Share(Freed(o, w));
  }

  // A handler of the row moves the share on or closes it.
  lemma {:induction false} HandlerUnderway(o: Id, v: View, w: View, w': View, x: Handler, y: Handler, call: HandlerCall)
    requires ViewOk(o, w) && Open(v, x) && x.copy.id == o && Underway(o, v, w, KindFor(x))
    requires HandlerOk(w, y) && y.copy.id == o && y.kind == x.kind && HandlerMoves(y, call, w, w')
    ensures Underway(o, v, w', KindFor(x)) || Share(w') == Share(OneDelivery(o, v, x))
  {
    if x.kind == Confirming {
      ConfirmUnderway(o, v, w, w', x, y, call);
    } else if call == Finish {
      FinishUnderway(o, v, w, w', x, y);
    } else if call.CallRelease? {
      ReleaseUnderway(o, v, w, w', y, call.release);
    }
  }

  // A share closed by the row does not change any more.
  predicate Done(o: Id, w: View, x: Handler) {
    && w.order.Some? && w.order.value.version == 3 && w.pay.Some?
    && if x.kind == Confirming then w.order.value.status == Confirmed
       else w.order.value.status == Status.PaymentFailed && Freed(o, w) == w
  }

  lemma {:induction false} OneDeliveryDone(o: Id, v: View, w: View, x: Handler)
    requires Open(v, x) && ViewOk(o, w) && Share(w) == Share(OneDelivery(o, v, x))
    ensures Done(o, w, x)
  {
    if x.kind == Failing {
      FreedAll(o, w);
    }
  }

  lemma {:induction false} HandlerDone(o: Id, w: View, w': View, x: Handler, y: Handler, call: HandlerCall)
    requires ViewOk(o, w) && Done(o, w, x) && HandlerOk(w, y) && y.kind == x.kind && y.copy.id == o
    requires HandlerMoves(y, call, w, w')
    ensures Share(w') == Share(w)
  {
  }

  // ---------- on the state ----------

  lemma {:induction false} MoveUnderway(s: Sys, step: Step, o: Id, v: View, w: View, w': View, x: Handler)
    requires ViewOk(o, w) && Open(v, x) && x.copy.id == o && Underway(o, v, w, KindFor(x))
    requires StepMoves(s, step, o, w, w') && (step.Handling? || (step.LateRelease? && x.kind == Failing))
    requires step.Handling? && step.h in s.handlers ==>
               HandlerOk(w, s.handlers[step.h]) && s.handlers[step.h].copy.id == o && s.handlers[step.h].kind == x.kind
    ensures Underway(o, v, w', KindFor(x)) || Share(w') == Share(OneDelivery(o, v, x))
  {
    if step.Handling? {
      HandlerUnderway(o, v, w, w', x, s.handlers[step.h], step.call);
    } else {
      FreedUnderway(o, v, w);
    }
  }

  // A step for the row moves an open share on, or closes it.
  lemma {:induction false} ForRowUnderway(s: Sys, d: Delivery, step: Step, v: View, x: Handler, init: map<Id, nat>)
    requires Inv(s, init) && d.ToOrders? && RowExists(s, d) && ForRow(s, d, step)
    requires s.payOutbox[d.i].kind == KindFor(x) && Open(v, x) && x.copy.id == OrderOf(s, d)
    requires Underway(OrderOf(s, d), v, ViewOf(s, OrderOf(s, d)), KindFor(x))
    ensures var o, w' := OrderOf(s, d), ViewOf(Next(s, step), OrderOf(s, d));
            Underway(o, v, w', KindFor(x)) || Share(w') == Share(OneDelivery(o, v, x))
  {
    var o := OrderOf(s, d);
    var w, w' := ViewOf(s, o), ViewOf(Next(s, step), o);
    At(s, o, init);
    StepShare(s, step, o, init);
    if w' != w {
      if step.Handling? {
        assert InFlightOk(s, step.h);
      }
      MoveUnderway(s, step, o, v, w, w', x);
    }
  }

  // And leaves a closed one as it is.
  lemma {:induction false} ForRowDone(s: Sys, d: Delivery, step: Step, x: Handler, init: map<Id, nat>)
    requires Inv(s, init) && d.ToOrders? && RowExists(s, d) && ForRow(s, d, step)
    requires s.payOutbox[d.i].kind == KindFor(x) && (x.kind == Confirming || x.kind == Failing)
    requires Done(OrderOf(s, d), ViewOf(s, OrderOf(s, d)), x)
    ensures Share(ViewOf(Next(s, step), OrderOf(s, d))) == Share(ViewOf(s, OrderOf(s, d)))
  {
    var o := OrderOf(s, d);
    var w, w' := ViewOf(s, o), ViewOf(Next(s, step), o);
    At(s, o, init);
    StepShare(s, step, o, init);
    if w' != w && step.Handling? {
      assert InFlightOk(s, step.h);
      HandlerDone(o, w, w', x, s.handlers[step.h], step.call);
    }
  }

  lemma {:induction false} ForeignMoves(s: Sys, step: Step, o: Id, w: View, w': View)
    requires ViewOk(o, w) && w.pay.Some? && w.order.Some? && w.order.value.id == o
    requires StepMoves(s, step, o, w, w') && (step.DeliverToPayment? || step.DeliverToStock?)
    requires step.DeliverToStock? ==> s.db.outbox[step.i].kind != OrderConfirmed
    ensures w' == w
  {
    if step.DeliverToStock? {
      FreedAll(o, w);
    }
  }

  lemma {:induction false} ForeignShare(s: Sys, d: Delivery, step: Step, init: map<Id, nat>)
    requires Inv(s, init) && d.ToOrders? && RowExists(s, d) && Foreign(s, d, step)
    requires s.payOutbox[d.i].kind == EvProcessed || s.payOutbox[d.i].kind == EvFailed
    ensures ViewOf(Next(s, step), OrderOf(s, d)) == ViewOf(s, OrderOf(s, d))
  {
    var o := OrderOf(s, d);
    MessagesForMember(s.payOutbox, d.i);
    At(s, o, init);
    ViewTells(o, ViewOf(s, o), s.payOutbox[d.i]);
    StepShare(s, step, o, init);
    if ViewOf(Next(s, step), o) != ViewOf(s, o) {
      ForeignMoves(s, step, o, ViewOf(s, o), ViewOf(Next(s, step), o));
    }
  }

  // The share of the row's order all along the run.
  ghost predicate Along(o: Id, v: View, w: View, x: Handler)
    requires v.order.Some?
  {
    Underway(o, v, w, KindFor(x)) || Share(w) == Share(OneDelivery(o, v, x))
  }

  lemma {:induction false} InterleavedRun(s: Sys, d: Delivery, steps: seq<Step>, x: Handler, init: map<Id, nat>)
    requires Inv(s, init) && d.ToOrders? && RowExists(s, d) && Interleaved(s, d, steps)
    requires s.payOutbox[d.i].kind == KindFor(x) && x.copy.id == OrderOf(s, d) && Open(ViewOf(s, OrderOf(s, d)), x)
    ensures var t := Run(s, steps);
            && Inv(t, init) && RowExists(t, d) && t.payOutbox[d.i] == s.payOutbox[d.i]
            && Along(OrderOf(s, d), ViewOf(s, OrderOf(s, d)), ViewOf(t, OrderOf(s, d)), x)
  {
    RunKeeps(s, steps, init);
    OutboxGrowsRun(s, steps);
    if |steps| > 0 {
      var front, step := steps[..|steps| - 1], steps[|steps| - 1];
      InterleavedRun(s, d, front, x, init);
      AlongStep(s, Run(s, front), d, step, x, init);
    }
  }

  lemma {:induction false} AlongStep(s: Sys, t: Sys, d: Delivery, step: Step, x: Handler, init: map<Id, nat>)
    requires Inv(t, init) && d.ToOrders? && RowExists(s, d) && RowExists(t, d) && t.payOutbox[d.i] == s.payOutbox[d.i]
    requires ForRow(t, d, step) || Foreign(t, d, step)
    requires s.payOutbox[d.i].kind == KindFor(x) && x.copy.id == OrderOf(s, d) && Open(ViewOf(s, OrderOf(s, d)), x)
    requires Along(OrderOf(s, d), ViewOf(s, OrderOf(s, d)), ViewOf(t, OrderOf(s, d)), x)
    ensures Along(OrderOf(s, d), ViewOf(s, OrderOf(s, d)), ViewOf(Next(t, step), OrderOf(s, d)), x)
  {
    var o, v := OrderOf(s, d), ViewOf(s, OrderOf(s, d));
    if ForRow(t, d, step) {
      if Underway(o, v, ViewOf(t, o), KindFor(x)) {
        ForRowUnderway(t, d, step, v, x, init);
      } else {
        At(t, o, init);
        OneDeliveryDone(o, v, ViewOf(t, o), x);
        ForRowDone(t, d, step, x, init);
      }
    } else {
      ForeignShare(t, d, step, init);
    }
  }

  // A handler keeps working for the event that started it until it is gone.
  lemma {:induction false} KeepsWorking(s: Sys, h: Id, call: HandlerCall, m: PayMessage)
    requires h in s.handlers ==> WorksFor(s.handlers[h], m)
    ensures var s' := Next(s, Handling(h, call));
            s'.payOutbox == s.payOutbox || (h in s.handlers && s.handlers[h].kind.Cancelling?)
    ensures var s' := Next(s, Handling(h, call));
            h in s'.handlers ==> WorksFor(s'.handlers[h], m)
  {
  }

  lemma {:induction false} ScriptKeepsWorking(s: Sys, d: Delivery, n: nat)
    requires d.ToOrders? && Undisturbed(s, d) && 1 <= n <= |Script(d)|
    requires OrderOf(s, d) in s.db.orders ==> s.db.orders[OrderOf(s, d)].id == OrderOf(s, d)
    ensures var t := Run(s, Script(d)[..n]);
            && t.payOutbox == s.payOutbox
            && (d.h in t.handlers ==> WorksFor(t.handlers[d.h], s.payOutbox[d.i]))
    ensures Interleaved(s, d, Script(d)[..n])
  {
    var steps := Script(d)[..n];
    var front := steps[..n - 1];
    assert front == Script(d)[..n - 1];
    if n == 1 {
      assert front == [] && Run(s, front) == s && Interleaved(s, d, front);
    } else {
      ScriptKeepsWorking(s, d, n - 1);
      KeepsWorking(Run(s, front), d.h, steps[n - 1].call, s.payOutbox[d.i]);
    }
  }

  // One clean delivery is itself such a run, so every payment event can be settled by one.
  lemma {:induction false} CleanIsOverlap(s: Sys, d: Delivery, init: map<Id, nat>)
    requires Inv(s, init) && d.ToOrders? && Clean(s, d)
    ensures Interleaved(s, d, Script(d))
    ensures RowExists(Run(s, Script(d)), d) && Settled(Run(s, Script(d)), d)
  {
    At(s, OrderOf(s, d), init);
    ScriptKeepsWorking(s, d, |Script(d)|);
    assert Script(d)[..|Script(d)|] == Script(d);
    CleanSettles(s, d, init);
  }

  // No step for the row touches another order's share.
  lemma {:induction false} RowTouchesNoOther(s: Sys, d: Delivery, step: Step, init: map<Id, nat>)
    requires Inv(s, init) && d.ToOrders? && RowExists(s, d) && ForRow(s, d, step)
    ensures OthersSame(s, Next(s, step), OrderOf(s, d))
  {
    StepIsLocal(s, step, init);
    match step
    case DeliverToOrders(h, i, event) => DeliverShare(s, h, s.payOutbox[i], event);
    case _ =>
  }

  // A row with work left is for an order still open.
  lemma {:induction false} UnsettledIsOpen(s: Sys, d: Delivery, init: map<Id, nat>)
    requires Inv(s, init) && d.ToOrders? && RowExists(s, d) && !Settled(s, d)
    ensures OrderOf(s, d) in s.db.orders
    ensures var x := HandlerFor(s, s.payOutbox[d.i], 0);
            && s.payOutbox[d.i].kind == KindFor(x) && x.copy.id == OrderOf(s, d) && Open(ViewOf(s, OrderOf(s, d)), x)
  {
    StartsWell(s, d.i, 0, init);
    At(s, OrderOf(s, d), init);
  }

  lemma {:induction false} UnderwayIsUnsettled(o: Id, v: View, t: Sys, d: Delivery, x: Handler)
    requires d.ToOrders? && RowExists(t, d) && OrderOf(t, d) == o && t.payOutbox[d.i].kind == KindFor(x)
    requires Open(v, x) && Underway(o, v, ViewOf(t, o), KindFor(x))
    ensures !Settled(t, d)
  {
  }

  // However many deliveries of a payment event overlap, crash and start again, and whatever other rows
  // and orders see to in between, by the time the row is settled the order's share is exactly what one
  // clean delivery leaves.
  lemma {:induction false} OverlapIsOneDelivery(s0: Sys, before: seq<Step>, init: map<Id, nat>, d: Delivery,
                                                steps: seq<Step>)
    requires Initial(s0, init) && d.ToOrders? && Clean(Run(s0, before), d) && !Settled(Run(s0, before), d)
    requires Interleaved(Run(s0, before), d, steps)
    requires RowExists(Run(Run(s0, before), steps), d) && Settled(Run(Run(s0, before), steps), d)
    ensures var s := Run(s0, before);
            var o := OrderOf(s, d);
            Share(ViewOf(Run(s, steps), o)) == Share(ViewOf(AfterDelivery(s, d), o))
  {
    var s := Run(s0, before);
    Reachable(s0, before, init);
    SettledShare(s, d, steps, init);
    CleanIsOverlap(s, d, init);
    SettledShare(s, d, Script(d), init);
  }

  lemma {:induction false} SettledShare(s: Sys, d: Delivery, steps: seq<Step>, init: map<Id, nat>)
    requires Inv(s, init) && d.ToOrders? && RowExists(s, d) && !Settled(s, d) && Interleaved(s, d, steps)
    requires RowExists(Run(s, steps), d) && Settled(Run(s, steps), d)
    ensures var o := OrderOf(s, d);
            && ViewOf(s, o).order.Some? && o in s.db.orders
            && Share(ViewOf(Run(s, steps), o)) ==
               Share(OneDelivery(o, ViewOf(s, o), HandlerFor(s, s.payOutbox[d.i], 0)))
  {
    UnsettledIsOpen(s, d, init);
    var o, x := OrderOf(s, d), HandlerFor(s, s.payOutbox[d.i], 0);
    InterleavedRun(s, d, steps, x, init);
    if Underway(o, ViewOf(s, o), ViewOf(Run(s, steps), o), KindFor(x)) {
      UnderwayIsUnsettled(o, ViewOf(s, o), Run(s, steps), d, x);
    }
  }
}
