/** FailAfterPayment: when it completes, what a failed one leaves, and the orders it can never close. */
module SagaCancel {
  import opened Common
  import opened Orders
  import opened StockLedger
  import opened EventStore
  import opened PaymentService
  import opened SagaSystem
  import opened SagaInvariant
  import opened SagaFrames
  import opened SagaSteps
  import opened SagaShares
  import opened SagaTheorems
  import opened SagaDelivery
  import P = Payment

  // FailAfterPayment from end to end, undisturbed.
  function CancelScript(h: Id, payment: Id, reason: string): seq<Step> {
    [StartCancel(h, payment, reason), Handling(h, Compensate), Handling(h, CallRefund(Answered)),
        Handling(h, CallRelease(Answered)), Handling(h, Finish)]
  }

  predicate Cancelable(s: Sys, h: Id, payment: Id, o: Id) {
    && h !in s.handlers && payment != NIL && payment in s.streams && BelongsTo(s.streams[payment], o)
    && o in s.db.orders && s.db.orders[o].id == o && s.db.orders[o].status == PendingPayment
    && PairOk(PendingPayment, Lookup(s.db.sagas, o))
  }

  function Canceller(s: Sys, payment: Id, reason: string, at: Stage, o: Id): Handler
    requires o in s.db.orders
  {
    Handler(Cancelling(reason), None, payment, at, s.db.orders[o])
  }

  lemma {:induction false} CancelOpens(s: Sys, h: Id, payment: Id, reason: string, o: Id)
    requires Cancelable(s, h, payment, o)
    ensures Next(Next(s, StartCancel(h, payment, reason)), Handling(h, Compensate)) ==
            WithHandler(s.(db := s.db.(sagas := s.db.sagas[o := Compensating])), h,
                Canceller(s, payment, reason, ToRefund, o))
  {
    var x, y := Canceller(s, payment, reason, ToCompensate, o), Canceller(s, payment, reason, ToRefund, o);
    assert Next(s, StartCancel(h, payment, reason)) == WithHandler(s, h, x);
    CompensateExact(s.db, o);
    assert s.handlers[h := x][h := y] == s.handlers[h := y];
  }

  lemma {:induction false} CancelCloses(s: Sys, h: Id, x: Handler)
    requires h in s.handlers && s.handlers[h] == x && x.at == ToRelease && x.kind.Cancelling? && x.event == None
    requires Current(s.db, x.copy) && x.copy.status == PendingPayment
             && Lookup(s.db.sagas, x.copy.id) == Some(Compensating)
    ensures var t := Next(Next(s, Handling(h, CallRelease(Answered))), Handling(h, Finish));
            x.copy.id in t.db.orders && t.db.orders[x.copy.id].status == Cancelled
  {
    FinishExact(s.db, x.copy, Cancelled);
  }

  // The state in which FailAfterPayment calls for the refund.
  function BeforeRefund(s: Sys, h: Id, payment: Id, reason: string, o: Id): Sys
    requires o in s.db.orders
  {
    WithHandler(s.(db := s.db.(sagas := s.db.sagas[o := Compensating])), h, Canceller(s, payment, reason, ToRefund, o))
  }

  // A refund is executed if and only if the payment is captured and a reason is given.
  lemma {:induction false} RefundedIff(s: Sys, payment: Id, reason: string)
    requires StreamsLegal(s.streams) && OnePerOrder(s.streams) && payment != NIL && payment in s.streams
    ensures Refunded(s, payment, reason).Ok? <==> P.Captured(s.streams[payment]) && |reason| > 0
  {
    RefundKeeps(s.streams, payment, reason);
  }

  lemma {:induction false} CancelRefunds(s: Sys, h: Id, payment: Id, reason: string, o: Id, call: Call)
    requires Cancelable(s, h, payment, o) && StreamsLegal(s.streams) && OnePerOrder(s.streams) && call != Lost
    ensures var t := Next(BeforeRefund(s, h, payment, reason, o), Handling(h, CallRefund(call)));
            && t.db == s.db.(sagas := s.db.sagas[o := Compensating]) && t.ledger == s.ledger
            && (if P.Captured(s.streams[payment]) && |reason| > 0 then
                  && t.streams == s.streams[payment := s.streams[payment]
                     + [P.PaymentRefunded(payment, s.streams[payment][0].amount, reason)]]
                  && t.handlers == if call == Answered
                     then s.handlers[h := Canceller(s, payment, reason, ToRelease, o)] else s.handlers
                else t.streams == s.streams && t.payOutbox == s.payOutbox && t.handlers == s.handlers)
  {
    var x := Canceller(s, payment, reason, ToRefund, o);
    var s1 := BeforeRefund(s, h, payment, reason, o).(refunding := s.refunding + {payment});
    RefundNext(s, h, payment, reason, o, call);
    RefundedIff(s1, payment, reason);
    if Refunded(s1, payment, reason).Ok? {
      RefundShape(s1, payment, reason);
    }
    WithoutHandler(s, h, x);
  }

  lemma {:induction false} RefundNext(s: Sys, h: Id, payment: Id, reason: string, o: Id, call: Call)
    requires o in s.db.orders
    ensures var x := Canceller(s, payment, reason, ToRefund, o);
            var s0 := BeforeRefund(s, h, payment, reason, o);
            var s1 := s0.(refunding := s.refunding + {payment});
            Next(s0, Handling(h, CallRefund(call))) == AfterRefund(s1, h, x, call, Refunded(s1, payment, reason))
  {
  }

  lemma {:induction false} WithoutHandler(s: Sys, h: Id, x: Handler)
    requires h !in s.handlers
    ensures s.handlers[h := x] - {h} == s.handlers
    ensures s.handlers[h := x][h := x.(at := ToRelease)] == s.handlers[h := x.(at := ToRelease)]
  {
  }

  // What FailAfterPayment leaves when its refund is refused: the checkpoint and nothing else.
  predicate OnlyCheckpoint(s: Sys, t: Sys, o: Id) {
    && t.db == s.db.(sagas := s.db.sagas[o := Compensating])
    && t.ledger == s.ledger && t.streams == s.streams && t.payOutbox == s.payOutbox
  }

  // What it leaves when it completes.
  ghost predicate Undid(t: Sys, payment: Id, o: Id) {
    && o in t.db.orders && t.db.orders[o].status == Cancelled && Lookup(t.db.sagas, o) == Some(Compensated)
    && AllReturned(t, o, t.db.orders[o])
    && payment in t.streams && P.WasRefunded(t.streams[payment])
    && t.streams[payment][2].PaymentRefunded? && t.streams[payment][2].refund == t.db.orders[o].total
  }

  lemma {:induction false} CancelledUndid(t: Sys, payment: Id, o: Id, init: map<Id, nat>)
    requires Inv(t, init) && o in t.db.orders && t.db.orders[o].status == Cancelled
    requires payment in t.streams && BelongsTo(t.streams[payment], o)
    ensures Undid(t, payment, o)
  {
    At(t, o, init);
    PayOfIs(t.streams, o, payment);
    HoldingIsLines(t, o, RowStatus.Released, init);
  }

  lemma {:induction false} GoneSteps(s: Sys, h: Id)
    requires h !in s.handlers
    ensures Next(Next(s, Handling(h, CallRelease(Answered))), Handling(h, Finish)) == s
  {
  }

  lemma {:induction false} CancelRun(s: Sys, h: Id, payment: Id, reason: string, o: Id)
    requires Cancelable(s, h, payment, o) && StreamsLegal(s.streams) && OnePerOrder(s.streams)
    ensures var t := Run(s, CancelScript(h, payment, reason));
            if P.Captured(s.streams[payment]) && |reason| > 0 then
              o in t.db.orders && t.db.orders[o].status == Cancelled
            else OnlyCheckpoint(s, t, o)
  {
    RunFive(s, StartCancel(h, payment, reason), Handling(h, Compensate), Handling(h, CallRefund(Answered)),
        Handling(h, CallRelease(Answered)), Handling(h, Finish));
    CancelOpens(s, h, payment, reason, o);
    CancelRefunds(s, h, payment, reason, o, Answered);
    var s3 := Next(BeforeRefund(s, h, payment, reason, o), Handling(h, CallRefund(Answered)));
    if P.Captured(s.streams[payment]) && |reason| > 0 {
      CancelCloses(s3, h, Canceller(s, payment, reason, ToRelease, o));
    } else {
      GoneSteps(s3, h);
    }
  }

  // FailAfterPayment, run undisturbed from any reachable open state, cancels the order, with everything
  // undone, if and only if the payment is still captured and a reason is given; otherwise it leaves the
  // saga compensating and nothing else changed.
  lemma {:induction false} CancelCompletesIff(s0: Sys, steps: seq<Step>, init: map<Id, nat>, h: Id, payment: Id,
                                              reason: string, o: Id)
    requires Initial(s0, init) && Cancelable(Run(s0, steps), h, payment, o)
    ensures var s := Run(s0, steps);
            var t := Run(s, CancelScript(h, payment, reason));
            && o in t.db.orders
            && (t.db.orders[o].status == Cancelled <==> P.Captured(s.streams[payment]) && |reason| > 0)
            && (t.db.orders[o].status == Cancelled ==> Undid(t, payment, o))
            && (t.db.orders[o].status != Cancelled ==> OnlyCheckpoint(s, t, o))
  {
    var s := Run(s0, steps);
    Reachable(s0, steps, init);
    CancelRun(s, h, payment, reason, o);
    var t := Run(s, CancelScript(h, payment, reason));
    if t.db.orders[o].status == Cancelled {
      RunKeeps(s, CancelScript(h, payment, reason), init);
      StreamsLastRun(s, CancelScript(h, payment, reason));
      CancelledUndid(t, payment, o, init);
    }
  }

  lemma {:induction false} StreamsLastRun(s: Sys, steps: seq<Step>)
    ensures StreamsGrow(s.streams, Run(s, steps).streams)
  {
    if |steps| > 0 {
      StreamsLastRun(s, steps[..|steps| - 1]);
      PaymentsLast(Run(s, steps[..|steps| - 1]), steps[|steps| - 1]);
    }
  }

  // ---------- the refund nobody heard of ----------

  function UnheardRefund(h: Id, payment: Id, reason: string): seq<Step> {
    [StartCancel(h, payment, reason), Handling(h, Compensate), Handling(h, CallRefund(Unanswered))]
  }

  // A handler that saw its refund through.
  predicate Survives(s: Sys, h: Id, o: Id) {
    h in s.handlers && s.handlers[h].copy.id == o && (s.handlers[h].at == ToRelease || s.handlers[h].at == ToFinish)
  }

  // The order is still open though its payment was refunded.
  ghost predicate OpenRefunded(s: Sys, o: Id) {
    && o in s.db.orders && s.db.orders[o].status == PendingPayment
    && ViewOf(s, o).pay.Some? && P.WasRefunded(ViewOf(s, o).pay.value.es)
  }

  // And no handler that saw it through is left.
  ghost predicate Stuck(s: Sys, o: Id) {
    OpenRefunded(s, o) && forall h :: !Survives(s, h, o)
  }

  lemma {:induction false} StuckShare(s: Sys, step: Step, o: Id, v: View, v': View)
    requires ViewOk(o, v) && v.order.Some? && v.order.value.status == PendingPayment
    requires v.pay.Some? && P.WasRefunded(v.pay.value.es)
    requires step.Handling? ==> !Survives(s, step.h, o) && Owner(s, step) == o
    requires StepMoves(s, step, o, v, v')
    ensures v'.order == v.order && v'.pay == v.pay
  {
  }

  lemma {:induction false} StuckStep(s: Sys, step: Step, o: Id, init: map<Id, nat>)
    requires Inv(s, init) && Stuck(s, o)
    ensures Stuck(Next(s, step), o)
  {
    var t := Next(s, step);
    At(s, o, init);
    StepShare(s, step, o, init);
    if ViewOf(t, o) != ViewOf(s, o) {
      StuckShare(s, step, o, ViewOf(s, o), ViewOf(t, o));
    }
    forall h ensures !Survives(t, h, o) {
      if h in t.handlers && t.handlers[h].copy.id == o {
        StuckHandlers(s, step, o, h, init);
      }
    }
  }

  lemma {:induction false} StuckHandlers(s: Sys, step: Step, o: Id, h: Id, init: map<Id, nat>)
    requires Inv(s, init) && Stuck(s, o) && h in Next(s, step).handlers && Next(s, step).handlers[h].copy.id == o
    ensures !Survives(Next(s, step), h, o)
  {
    HandlersMove(s, step, h, init);
    if h in s.handlers {
      assert InFlightOk(s, h) && !Survives(s, h, o);
      ViewPayLegal(s, o);
    }
  }

  lemma {:induction false} StuckRun(s: Sys, steps: seq<Step>, o: Id, init: map<Id, nat>)
    requires Inv(s, init) && Stuck(s, o)
    ensures Inv(Run(s, steps), init) && Stuck(Run(s, steps), o)
  {
    if |steps| > 0 {
      var before := Run(s, steps[..|steps| - 1]);
      StuckRun(s, steps[..|steps| - 1], o, init);
      StepKeeps(before, steps[|steps| - 1], init);
      StuckStep(before, steps[|steps| - 1], o, init);
    }
  }

  function ClosingSteps(h: Id): seq<Step> {
    [Handling(h, CallRelease(Answered))] + [Handling(h, Finish)]
  }

  lemma {:induction false} FinishFrees(s: Sys, h: Id, x: Handler)
    requires h in s.handlers && s.handlers[h] == x && x.at == ToFinish && x.kind.Cancelling? && x.event == None
    requires Current(s.db, x.copy) && x.copy.status == PendingPayment
             && Lookup(s.db.sagas, x.copy.id) == Some(Compensating)
    ensures var t := Next(s, Handling(h, Finish));
            x.copy.id in t.db.orders && t.db.orders[x.copy.id].status == Cancelled
  {
    FinishExact(s.db, x.copy, Cancelled);
  }

  lemma {:induction false} ReleaseGoesOn(s: Sys, h: Id, x: Handler)
    requires h in s.handlers && s.handlers[h] == x && (x.at == ToRelease || x.at == ToFinish)
    ensures var t := Next(s, Handling(h, CallRelease(Answered)));
            h in t.handlers && t.handlers[h] == x.(at := ToFinish) && t.db == s.db
  {
  }

  // Who survives belongs to FailAfterPayment and has the order as it is.
  lemma {:induction false} SurvivorIsCanceller(s: Sys, h: Id, o: Id, init: map<Id, nat>)
    requires Inv(s, init) && OpenRefunded(s, o) && Survives(s, h, o)
    ensures var x := s.handlers[h];
            && x.kind.Cancelling? && x.event == None && Current(s.db, x.copy) && x.copy.status == PendingPayment
            && Lookup(s.db.sagas, o) == Some(Compensating)
  {
    assert InFlightOk(s, h);
    At(s, o, init);
  }

  // A handler that saw the refund through can close the order.
  lemma {:induction false} SurvivorCloses(s: Sys, h: Id, o: Id, init: map<Id, nat>)
    requires Inv(s, init) && OpenRefunded(s, o) && Survives(s, h, o)
    ensures var t := Run(s, ClosingSteps(h));
            o in t.db.orders && t.db.orders[o].status == Cancelled
  {
    SurvivorIsCanceller(s, h, o, init);
    RunAppend(s, [Handling(h, CallRelease(Answered))], [Handling(h, Finish)]);
    RunOne(s, Handling(h, CallRelease(Answered)));
    ReleaseGoesOn(s, h, s.handlers[h]);
    var s1 := Next(s, Handling(h, CallRelease(Answered)));
    RunOne(s1, Handling(h, Finish));
    FinishFrees(s1, h, s.handlers[h].(at := ToFinish));
  }

  predicate Closes(s: Sys, o: Id, more: seq<Step>) {
    o in Run(s, more).db.orders && IsTerminal(Run(s, more).db.orders[o].status)
  }

  predicate StaysOpen(t: Sys, o: Id) {
    o in t.db.orders && t.db.orders[o].status == PendingPayment && Lookup(t.db.sagas, o) == Some(Compensating)
  }

  // An order whose payment was refunded while it was open can still be closed if and only if a handler
  // that saw the refund through is left. Otherwise it stays pending_payment, and its saga compensating,
  // whatever happens.
  lemma {:induction false} ClosesIff(s0: Sys, steps: seq<Step>, init: map<Id, nat>, o: Id)
    requires Initial(s0, init) && OpenRefunded(Run(s0, steps), o)
    ensures (exists more :: Closes(Run(s0, steps), o, more)) <==> exists h :: Survives(Run(s0, steps), h, o)
    ensures Stuck(Run(s0, steps), o) ==> forall more: seq<Step> :: StaysOpen(Run(Run(s0, steps), more), o)
  {
    var s := Run(s0, steps);
    Reachable(s0, steps, init);
    if h :| Survives(s, h, o) {
      SurvivorCloses(s, h, o, init);
      assert Closes(s, o, ClosingSteps(h));
    } else {
      forall more: seq<Step> ensures StaysOpen(Run(s, more), o) && !Closes(s, o, more) {
        StuckRun(s, more, o, init);
        At(Run(s, more), o, init);
      }
    }
  }

  lemma {:induction false} RunThree(s: Sys, a: Step, b: Step, c: Step)
    ensures Run(s, [a, b, c]) == Next(Next(Next(s, a), b), c)
  {
    RunOne(s, a);
    RunAppend(s, [a], [b]);
    RunOne(Run(s, [a]), b);
    RunAppend(s, [a] + [b], [c]);
    RunOne(Run(s, [a] + [b]), c);
    assert [a] + [b] + [c] == [a, b, c];
  }

  lemma {:induction false} UnheardShape(s: Sys, h: Id, payment: Id, reason: string, o: Id)
    requires Cancelable(s, h, payment, o) && StreamsLegal(s.streams) && OnePerOrder(s.streams)
    requires P.Captured(s.streams[payment]) && |reason| > 0
    ensures var u := Run(s, UnheardRefund(h, payment, reason));
            && Cancelable(u, h, payment, o) && P.WasRefunded(u.streams[payment]) && u.handlers == s.handlers
            && Lookup(u.db.sagas, o) == Some(Compensating)
  {
    RunThree(s, StartCancel(h, payment, reason), Handling(h, Compensate), Handling(h, CallRefund(Unanswered)));
    CancelOpens(s, h, payment, reason, o);
    CancelRefunds(s, h, payment, reason, o, Unanswered);
  }

  // No handler of an order whose payment is captured saw a refund through.
  lemma {:induction false} CapturedHasNoSurvivor(s: Sys, payment: Id, o: Id, h: Id, init: map<Id, nat>)
    requires Inv(s, init) && payment in s.streams && BelongsTo(s.streams[payment], o) && P.Captured(s.streams[payment])
    ensures !Survives(s, h, o)
  {
    PayOfIs(s.streams, o, payment);
    if h in s.handlers {
      assert InFlightOk(s, h);
    }
  }

  // The exact cost of a refund that is executed but not heard of: from any reachable state in which the
  // order could have been cancelled it leaves one in which calling FailAfterPayment again is possible,
  // and in which no continuation whatever closes the order.
  lemma {:induction false} UnheardRefundIsForever(s0: Sys, steps: seq<Step>, init: map<Id, nat>, h: Id, payment: Id,
                                                  reason: string, o: Id)
    requires Initial(s0, init) && Cancelable(Run(s0, steps), h, payment, o)
    requires P.Captured(Run(s0, steps).streams[payment]) && |reason| > 0
    ensures var u := Run(Run(s0, steps), UnheardRefund(h, payment, reason));
            && Cancelable(u, h, payment, o) && P.WasRefunded(u.streams[payment])
            && forall more: seq<Step> :: StaysOpen(Run(u, more), o)
  {
    var s, a := Run(s0, steps), UnheardRefund(h, payment, reason);
    Reachable(s0, steps, init);
    RunAppend(s0, steps, a);
    Reachable(s0, steps + a, init);
    UnheardShape(s, h, payment, reason, o);
    var u := Run(s, a);
    PayOfIs(u.streams, o, payment);
    forall g ensures !Survives(u, g, o) {
      CapturedHasNoSurvivor(s, payment, o, g, init);
    }
    ClosesIff(s0, steps + a, init, o);
  }
}
