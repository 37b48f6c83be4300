/** From an empty checkout to a concluded order: the theorems about runs, put together. */
module SagaEndToEnd {
  import opened Common
  import opened Orders
  import opened PaymentService
  import opened SagaSystem
  import opened SagaInvariant
  import opened SagaSteps
  import opened SagaTheorems
  import opened SagaDelivery
  import opened SagaDrain
  import opened ServiceRefinement

  // A checkout whose stock is there and whose order the database accepts.
  predicate Orderable(s: Sys, ord: Order) {
    && IsNew(ord) && ord.id !in s.used && ord.total > 0
    && (forall i | 0 <= i < |ord.lines| :: ord.lines[i].total >= 0)
    && ReserveFor(s, ord).Ok?
  }

  function Checkout(ord: Order): seq<Step> {
    CreateScript(ord, Answered, Answered, Lost)
  }

  lemma {:induction false} UnusedIsAbsent(s: Sys, o: Id, init: map<Id, nat>)
    requires Inv(s, init) && o !in s.used
    ensures o !in s.db.orders && o !in s.db.sagas && !HasPayment(s.streams, o)
  {
    At(s, o, init);
  }

  lemma {:induction false} CheckoutKeepsStreams(s: Sys, ord: Order)
    ensures Run(s, Checkout(ord)).streams == s.streams
  {
    var o := ord.id;
    RunSix(s, BeginCreate(ord), Creating(o, CallReserve(Answered)), Creating(o, SaveOrder(Answered)),
        Creating(o, CallUndo(Lost)), Creating(o, ReadForMark), Creating(o, Mark));
    var s1 := Next(s, BeginCreate(ord));
    var s2 := Next(s1, Creating(o, CallReserve(Answered)));
    var s3 := Next(s2, Creating(o, SaveOrder(Answered)));
    var s4 := Next(s3, Creating(o, CallUndo(Lost)));
    var s5 := Next(s4, Creating(o, ReadForMark));
    OtherStepsKeepStreams(s, BeginCreate(ord));
    OtherStepsKeepStreams(s1, Creating(o, CallReserve(Answered)));
    OtherStepsKeepStreams(s2, Creating(o, SaveOrder(Answered)));
    OtherStepsKeepStreams(s3, Creating(o, CallUndo(Lost)));
    OtherStepsKeepStreams(s4, Creating(o, ReadForMark));
    OtherStepsKeepStreams(s5, Creating(o, Mark));
  }

  // A checkout nothing disturbs leaves the order awaiting its first charge.
  lemma {:induction false} CheckoutAwaitsPayment(s: Sys, ord: Order, init: map<Id, nat>)
    requires Inv(s, init) && Orderable(s, ord)
    ensures var t := Run(s, Checkout(ord));
            && ord.id in t.db.orders && t.db.orders[ord.id] == ord.(status := PendingPayment, version := 2)
            && !HasPayment(t.streams, ord.id)
  {
    UnusedIsAbsent(s, ord.id, init);
    CheckoutKeepsStreams(s, ord);
    CreateIsRun(s, ord, Answered, Answered, Lost);
    MarkPendingExact(SaveOrderTx(s.db, ord).value, ord);
  }

  // From any reachable state, every order checked out with its stock at hand can be driven, without
  // failures, to the outcome its total calls for.
  lemma {:induction false} CheckoutConcludes(s0: Sys, steps: seq<Step>, init: map<Id, nat>, ord: Order)
    returns (ds: seq<Delivery>)
    requires Initial(s0, init) && Orderable(Run(s0, steps), ord)
    ensures var t := Run(s0, steps + Checkout(ord));
            FailureFree(t, ds) && Concluded(Drained(t, ds), ord.id)
  {
    var s, t := Run(s0, steps), Run(s0, steps + Checkout(ord));
    RunAppend(s0, steps, Checkout(ord));
    Reachable(s0, steps, init);
    Reachable(s0, steps + Checkout(ord), init);
    CheckoutAwaitsPayment(s, ord, init);
    ds := QuietIsReachable(t, [], Listed(t.db.orders.Keys), init);
    EveryOrderConcludes(s0, steps + Checkout(ord), init, ds, ord.id);
  }
}
